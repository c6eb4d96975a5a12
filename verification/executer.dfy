/**
 * The public entry points of the executer: ExecuteNonQuery, ExecuteDataSet and
 * ExecuteDataReader. Each resolves the stored procedure's name, binds the
 * parameters, and hands both to the IDatabase collaborator, choosing the overload
 * that takes a transaction exactly when one is supplied. ExecuteNonQuery then
 * reads back the output parameters, in order, turning an Int32 back into a bool
 * where the declared `out` parameter at the same position is a bool.
 *
 * The collaborator is modelled by what it is asked to do (an Invocation) and by
 * the values it writes into the output parameters (`written`, indexed by the
 * position of the parameter in the bound list).
 */
module Executer {
  import opened Wrappers
  import opened Platform
  import opened Metadata
  import opened ProcedureNames
  import opened Binder
  import opened BinderLemmas

  /**
   * AsBool: a returned value that must be a boxed Int32; 0 reads as false, any
   * other Int32 as true, anything else (null included) throws.
   */
  function AsBool(v: Value): (r: Result<bool, Error>)
    ensures r.Ok? <==> v.BoxedInt?
    ensures r.Ok? ==> (r.value <==> v.i != 0)
    ensures r.Err? ==> r.error == ReturnedBooleanNotInt32(v)
  {
    if !v.BoxedInt? then Err(ReturnedBooleanNotInt32(v))
    else Ok(v.i != 0)
  }

  /** The binder's bool-to-Int32 substitution and AsBool are inverse: a bool makes the round trip. */
  lemma AsBoolInvertsBoolToInt(b: bool)
    ensures AsBool(BoxedInt(BoolToInt(b))) == Ok(b)
  {
  }

  /** A transaction handed in by the caller (IDbTransaction), known only by identity. */
  datatype Transaction = Transaction(id: nat)

  /** Which IDatabase method is called. */
  datatype CallKind = NonQuery | DataSet | DataReader

  /** Which overload of that method is called: with or without the transaction argument. */
  datatype Overload = WithoutTransaction | WithTransaction(transaction: Transaction)

  /** A call made on the IDatabase collaborator. */
  datatype Invocation = Invocation(kind: CallKind, procedure: string, parameters: seq<BoundParameter>, overload: Overload)

  /** The overload choice: the transactional overload exactly when a transaction is supplied. */
  function ChooseOverload(trans: Option<Transaction>): (r: Overload)
    ensures r.WithTransaction? <==> trans.Some?
    ensures r.WithTransaction? ==> r.transaction == trans.value
  {
    match trans
    case None => WithoutTransaction
    case Some(t) => WithTransaction(t)
  }

  /**
   * The declared `out` parameters, in declaration order (see DeclaredOutputsAppend
   * and DeclaredOutputsFilter for order and membership).
   */
  function DeclaredOutputs(ps: seq<Parameter>): (r: seq<Parameter>)
    ensures |r| <= |ps|
    ensures forall j :: 0 <= j < |r| ==> r[j].isOut
  {
    if |ps| == 0 then []
    else
      var last := ps[|ps| - 1];
      DeclaredOutputs(ps[..|ps| - 1]) + (if last.isOut then [last] else [])
  }

  /**
   * The bound parameters whose direction is Output, in bound order (see
   * OutputParametersAppend and OutputParametersFilter for order and membership).
   */
  function OutputParameters(ps: seq<BoundParameter>): (r: seq<BoundParameter>)
    ensures |r| <= |ps|
    ensures forall j :: 0 <= j < |r| ==> r[j].direction == Output
  {
    if |ps| == 0 then []
    else
      var last := ps[|ps| - 1];
      OutputParameters(ps[..|ps| - 1]) + (if last.direction == Output then [last] else [])
  }

  /**
   * The collaborator's execution: the database writes `written[i]` into the
   * parameter at position i when that parameter is an output and it has a value
   * for it; it changes nothing else about the parameters.
   */
  function Executed(ps: seq<BoundParameter>, written: seq<Value>): (r: seq<BoundParameter>)
    ensures |r| == |ps|
    ensures forall i :: 0 <= i < |ps| ==> r[i].direction == ps[i].direction && r[i].name == ps[i].name
    ensures forall i :: 0 <= i < |ps| && ps[i].direction == Input ==> r[i] == ps[i]
  {
    seq(|ps|, i requires 0 <= i < |ps| =>
      if ps[i].direction == Output && i < |written| then ps[i].(value := written[i]) else ps[i])
  }

  /** The values of the output parameters after execution, in bound order. */
  function OutputValues(ps: seq<BoundParameter>): (r: seq<Value>)
    ensures |r| == |OutputParameters(ps)|
  {
    var outs := OutputParameters(ps);
    seq(|outs|, j requires 0 <= j < |outs| => outs[j].value)
  }

  /**
   * The guard on the j-th output: a declared `out` parameter exists at position j
   * and its element type is bool.
   */
  predicate ExpectsBool(declared: seq<Parameter>, j: nat) {
    j < |declared| && ElementType(declared[j].paramType) == Some(Bool)
  }

  /** What one output becomes in the returned list: the raw value, or AsBool's bool, boxed. */
  function MarshalValue(v: Value, expectsBool: bool): Result<Value, Error> {
    if expectsBool then
      match AsBool(v)
      case Ok(b) => Ok(BoxedBool(b))
      case Err(e) => Err(e)
    else Ok(v)
  }

  /**
   * The returned list in closed form: one entry per output, in order, each the
   * output's marshaled value; or the exception of the first output that cannot be
   * marshaled.
   */
  predicate MarshaledAs(outs: seq<Value>, declared: seq<Parameter>, r: Result<seq<Value>, Error>) {
    match r
    case Ok(values) =>
      && |values| == |outs|
      && forall j :: 0 <= j < |outs| ==> MarshalValue(outs[j], ExpectsBool(declared, j)) == Ok(values[j])
    case Err(e) =>
      exists j :: 0 <= j < |outs| && MarshalValue(outs[j], ExpectsBool(declared, j)) == Err(e)
        && forall i :: 0 <= i < j ==> MarshalValue(outs[i], ExpectsBool(declared, i)).Ok?
  }

  /**
   * The output-marshaling loop of ExecuteNonQuery over the output values `outs`,
   * matched by position against the declared `out` parameters. An output beyond
   * the declared ones passes through unchanged.
   */
  method MarshalOutputs(outs: seq<Value>, declared: seq<Parameter>) returns (r: Result<seq<Value>, Error>)
    ensures MarshaledAs(outs, declared, r)
  {
    var outputValues: seq<Value> := [];
    var outputIndex := 0;
    while outputIndex < |outs|
      invariant 0 <= outputIndex <= |outs|
      invariant |outputValues| == outputIndex
      invariant forall j :: 0 <= j < outputIndex ==> MarshalValue(outs[j], ExpectsBool(declared, j)) == Ok(outputValues[j])
    {
      var value := outs[outputIndex];
      var isOutputABoolean := false;
      if outputIndex < |declared| && ElementType(declared[outputIndex].paramType) == Some(Bool) {
        isOutputABoolean := true;
      }
      if isOutputABoolean {
        var b := AsBool(value);
        if b.Err? {
          return Err(b.error);
        }
        outputValues := outputValues + [BoxedBool(b.value)];
      } else {
        outputValues := outputValues + [value];
      }
      outputIndex := outputIndex + 1;
    }
    r := Ok(outputValues);
  }

  /** The closed form determines the result: MarshalOutputs has exactly one possible outcome. */
  lemma MarshaledAsUnique(outs: seq<Value>, declared: seq<Parameter>, r1: Result<seq<Value>, Error>,
                          r2: Result<seq<Value>, Error>)
    requires MarshaledAs(outs, declared, r1) && MarshaledAs(outs, declared, r2)
    ensures r1 == r2
  {
    if r1.Ok? && r2.Ok? {
      forall j | 0 <= j < |outs| ensures r1.value[j] == r2.value[j] {
        assert MarshalValue(outs[j], ExpectsBool(declared, j)) == Ok(r1.value[j]);
      }
      assert r1.value == r2.value;
    } else if r1.Err? && r2.Err? {
      var j1 :| 0 <= j1 < |outs| && MarshalValue(outs[j1], ExpectsBool(declared, j1)) == Err(r1.error)
        && forall i :: 0 <= i < j1 ==> MarshalValue(outs[i], ExpectsBool(declared, i)).Ok?;
      var j2 :| 0 <= j2 < |outs| && MarshalValue(outs[j2], ExpectsBool(declared, j2)) == Err(r2.error)
        && forall i :: 0 <= i < j2 ==> MarshalValue(outs[i], ExpectsBool(declared, i)).Ok?;
      assert j1 == j2;
    } else {
      assert false;
    }
  }

  /**
   * Marshaling fails exactly when some output in a bool position did not come back
   * as a boxed Int32; otherwise each bool position holds the bool its Int32 stands
   * for and every other position its raw value.
   */
  lemma MarshaledOutputs(outs: seq<Value>, declared: seq<Parameter>, r: Result<seq<Value>, Error>)
    requires MarshaledAs(outs, declared, r)
    ensures r.Ok? <==> forall j :: 0 <= j < |outs| && ExpectsBool(declared, j) ==> outs[j].BoxedInt?
    ensures r.Ok? ==> forall j :: 0 <= j < |outs| ==>
              r.value[j] == (if ExpectsBool(declared, j) then BoxedBool(outs[j].i != 0) else outs[j])
    ensures r.Err? ==> exists j :: (0 <= j < |outs| && ExpectsBool(declared, j) && !outs[j].BoxedInt?
                                    && r.error == ReturnedBooleanNotInt32(outs[j]))
  {
    if r.Ok? {
      forall j | 0 <= j < |outs|
        ensures r.value[j] == (if ExpectsBool(declared, j) then BoxedBool(outs[j].i != 0) else outs[j])
        ensures ExpectsBool(declared, j) ==> outs[j].BoxedInt?
      {
        assert MarshalValue(outs[j], ExpectsBool(declared, j)) == Ok(r.value[j]);
      }
    } else {
      var j :| 0 <= j < |outs| && MarshalValue(outs[j], ExpectsBool(declared, j)) == Err(r.error);
      assert ExpectsBool(declared, j) && !outs[j].BoxedInt?;
    }
  }

  /**
   * When the database hands back, at every bool position, the Int32 the binder
   * would have sent for the bool bs[j], the caller gets bs[j] back there, and
   * every other output passes through as it came.
   */
  lemma BoolOutputsRoundTrip(outs: seq<Value>, declared: seq<Parameter>, bs: seq<bool>)
    requires |bs| == |outs|
    requires forall j :: 0 <= j < |outs| && ExpectsBool(declared, j) ==> outs[j] == BoxedInt(BoolToInt(bs[j]))
    ensures MarshaledAs(outs, declared,
              Ok(seq(|outs|, j requires 0 <= j < |outs| => if ExpectsBool(declared, j) then BoxedBool(bs[j]) else outs[j])))
  {
    var values := seq(|outs|, j requires 0 <= j < |outs| => if ExpectsBool(declared, j) then BoxedBool(bs[j]) else outs[j]);
    forall j | 0 <= j < |outs|
      ensures MarshalValue(outs[j], ExpectsBool(declared, j)) == Ok(values[j])
    {
      if ExpectsBool(declared, j) {
        AsBoolInvertsBoolToInt(bs[j]);
      }
    }
  }

  /** Filtering outputs commutes with binding: one bound output per bindable `out` parameter. */
  lemma {:induction false} OutputsFollowBindable(nt: seq<Parameter>, bound: seq<BoundParameter>)
    requires |bound| == |nt|
    requires forall k :: 0 <= k < |nt| ==> (bound[k].direction == Output <==> nt[k].isOut)
    ensures |OutputParameters(bound)| == |DeclaredOutputs(nt)|
  {
    if |nt| > 0 {
      OutputsFollowBindable(nt[..|nt| - 1], bound[..|bound| - 1]);
    }
  }

  /** DeclaredOutputs distributes over appending one parameter. */
  lemma DeclaredOutputsAppend(ps: seq<Parameter>, q: Parameter)
    ensures DeclaredOutputs(ps + [q]) == DeclaredOutputs(ps) + (if q.isOut then [q] else [])
  {
    assert (ps + [q])[..|ps|] == ps;
  }

  /** DeclaredOutputs keeps exactly the `out` parameters of ps. */
  lemma {:induction false} DeclaredOutputsFilter(ps: seq<Parameter>)
    ensures forall q :: q in DeclaredOutputs(ps) <==> q in ps && q.isOut
  {
    if |ps| > 0 {
      var init := ps[..|ps| - 1];
      DeclaredOutputsFilter(init);
      assert ps == init + [ps[|ps| - 1]];
    }
  }

  /** OutputParameters distributes over appending one bound parameter. */
  lemma OutputParametersAppend(ps: seq<BoundParameter>, p: BoundParameter)
    ensures OutputParameters(ps + [p]) == OutputParameters(ps) + (if p.direction == Output then [p] else [])
  {
    assert (ps + [p])[..|ps|] == ps;
  }

  /** OutputParameters keeps exactly the bound parameters whose direction is Output. */
  lemma {:induction false} OutputParametersFilter(ps: seq<BoundParameter>)
    ensures forall p :: p in OutputParameters(ps) <==> p in ps && p.direction == Output
  {
    if |ps| > 0 {
      var init := ps[..|ps| - 1];
      OutputParametersFilter(init);
      assert ps == init + [ps[|ps| - 1]];
    }
  }

  /** No `out` parameter among ps is a transaction. */
  predicate NoTransactionOutputs(ps: seq<Parameter>) {
    forall i :: 0 <= i < |ps| && ps[i].isOut ==> !IsTransactionType(ps[i].paramType)
  }

  /** The bindable parameters of ps, and their `out` parameters, after splitting off the last parameter. */
  lemma BindableOutputsStep(ps: seq<Parameter>)
    requires |ps| > 0
    ensures var init := ps[..|ps| - 1];
      var last := ps[|ps| - 1];
      && DeclaredOutputs(ps) == DeclaredOutputs(init) + (if last.isOut then [last] else [])
      && DeclaredOutputs(Bindable(ps)) == DeclaredOutputs(Bindable(init))
           + (if last.isOut && !IsTransactionType(last.paramType) then [last] else [])
  {
    var init := ps[..|ps| - 1];
    var last := ps[|ps| - 1];
    assert ps == init + [last];
    DeclaredOutputsAppend(init, last);
    assert ps[..|ps|] == ps;
    BindableStep(ps, |ps|);
    if IsTransactionType(last.paramType) {
      assert Bindable(ps) == Bindable(init);
    } else {
      assert Bindable(ps) == Bindable(init) + [last];
      DeclaredOutputsAppend(Bindable(init), last);
    }
  }

  /** Skipping transactions can only drop `out` parameters. */
  lemma {:induction false} BindableOutputsFewer(ps: seq<Parameter>)
    ensures |DeclaredOutputs(Bindable(ps))| <= |DeclaredOutputs(ps)|
  {
    if |ps| > 0 {
      BindableOutputsFewer(ps[..|ps| - 1]);
      BindableOutputsStep(ps);
    }
  }

  /** Skipping transactions drops no `out` parameter when no `out` parameter is a transaction. */
  lemma {:induction false} BindableOutputsSame(ps: seq<Parameter>)
    requires NoTransactionOutputs(ps)
    ensures DeclaredOutputs(Bindable(ps)) == DeclaredOutputs(ps)
  {
    if |ps| > 0 {
      var init := ps[..|ps| - 1];
      assert NoTransactionOutputs(init) by {
        forall i | 0 <= i < |init| ensures init[i] == ps[i] { }
      }
      BindableOutputsSame(init);
      BindableOutputsStep(ps);
    }
  }

  /**
   * The guard `outputIndex < outputParams.Length` never fails on the parameters the
   * binder produced for the same method: there are never more output parameters
   * than declared `out` parameters, and exactly as many when no `out` parameter is
   * a transaction. So no output passes through unmarshaled for lack of a declared
   * parameter, and the IndexOutOfRangeException handler has nothing to catch.
   */
  lemma NoSurplusOutputs(m: MethodSig, db: Database, a0: seq<Value>)
    requires Bind(m, db, a0).Running?
    ensures |OutputParameters(Bind(m, db, a0).bound)| <= |DeclaredOutputs(m.parameters)|
    ensures NoTransactionOutputs(m.parameters) ==> |OutputParameters(Bind(m, db, a0).bound)| == |DeclaredOutputs(m.parameters)|
  {
    var s := Bind(m, db, a0);
    var nt := Bindable(m.parameters);
    BindCharacterized(m, db, a0);
    forall k | 0 <= k < |nt| ensures s.bound[k].direction == Output <==> nt[k].isOut {
      assert BindsTo(nt[k], k, OmitDirection(m), OmitType(m), db, s.args, s.bound[k]);
    }
    OutputsFollowBindable(nt, s.bound);
    BindableOutputsFewer(m.parameters);
    if NoTransactionOutputs(m.parameters) {
      BindableOutputsSame(m.parameters);
    }
  }

  /**
   * The call the executer would make, or the exception it throws first: the name is
   * resolved before anything is bound, so a missing package name wins over any
   * binding failure.
   */
  function Prepare(kind: CallKind, m: MethodSig, db: Database, trans: Option<Transaction>, a0: seq<Value>)
    : (r: Result<Invocation, Error>)
    ensures r.Ok? <==> GetFullObjectName(m).Ok? && Bind(m, db, a0).Running?
    ensures GetFullObjectName(m).Err? ==> r == Err(MissingPackageName)
    ensures GetFullObjectName(m).Ok? && r.Err? ==> r.error == Bind(m, db, a0).error
    ensures r.Ok? ==> && r.value.kind == kind
                      && r.value.procedure == GetFullObjectName(m).value
                      && r.value.parameters == Bind(m, db, a0).bound
                      && (trans.Some? ==> r.value.overload == WithTransaction(trans.value))
                      && (trans.None? ==> r.value.overload == WithoutTransaction)
  {
    match GetFullObjectName(m)
    case Err(e) => Err(e)
    case Ok(dbMethod) =>
      match Bind(m, db, a0).Outcome()
      case Err(e) => Err(e)
      case Ok(dbParameters) => Ok(Invocation(kind, dbMethod, dbParameters, ChooseOverload(trans)))
  }

  /** The caller's arguments afterwards: untouched when the name cannot be resolved. */
  function ArgumentsAfter(m: MethodSig, db: Database, a0: seq<Value>): seq<Value> {
    if GetFullObjectName(m).Err? then a0 else Bind(m, db, a0).args
  }

  /** Name resolution, then binding: the part the three entry points share. */
  method PrepareCall(kind: CallKind, m: MethodSig, db: Database, trans: Option<Transaction>, args: array<Value>)
    returns (r: Result<Invocation, Error>)
    modifies args
    ensures r == Prepare(kind, m, db, trans, old(args[..]))
    ensures args[..] == ArgumentsAfter(m, db, old(args[..]))
  {
    var name := GetFullObjectName(m);
    if name.Err? {
      return Err(name.error);
    }
    var dbMethod := name.value;
    var dbParameters := GetDbParameters(m, db, args);
    if dbParameters.Err? {
      return Err(dbParameters.error);
    }
    r := Ok(Invocation(kind, dbMethod, dbParameters.value, ChooseOverload(trans)));
  }

  /**
   * ExecuteNonQuery: makes the call (if name and binding succeed), lets the
   * database write `written` into the output parameters, and returns the
   * marshaled output values.
   */
  method ExecuteNonQuery(m: MethodSig, db: Database, trans: Option<Transaction>, args: array<Value>, written: seq<Value>)
    returns (r: Result<seq<Value>, Error>, issued: Option<Invocation>)
    modifies args
    ensures args[..] == ArgumentsAfter(m, db, old(args[..]))
    ensures var p := Prepare(NonQuery, m, db, trans, old(args[..]));
      && (p.Err? ==> r == Err(p.error) && issued == None)
      && (p.Ok? ==> issued == Some(p.value)
                    && MarshaledAs(OutputValues(Executed(p.value.parameters, written)), DeclaredOutputs(m.parameters), r))
  {
    var call := PrepareCall(NonQuery, m, db, trans, args);
    if call.Err? {
      return Err(call.error), None;
    }
    issued := Some(call.value);
    var executed := Executed(call.value.parameters, written);
    var outputParams := DeclaredOutputs(m.parameters);
    r := MarshalOutputs(OutputValues(executed), outputParams);
  }

  /** ExecuteDataSet: the same call with the DataSet method; the DataSet itself is the collaborator's. */
  method ExecuteDataSet(m: MethodSig, db: Database, trans: Option<Transaction>, args: array<Value>)
    returns (r: Result<Invocation, Error>)
    modifies args
    ensures r == Prepare(DataSet, m, db, trans, old(args[..]))
    ensures args[..] == ArgumentsAfter(m, db, old(args[..]))
  {
    r := PrepareCall(DataSet, m, db, trans, args);
  }

  /** ExecuteDataReader: the same call with the DataReader method; the reader itself is the collaborator's. */
  method ExecuteDataReader(m: MethodSig, db: Database, trans: Option<Transaction>, args: array<Value>)
    returns (r: Result<Invocation, Error>)
    modifies args
    ensures r == Prepare(DataReader, m, db, trans, old(args[..]))
    ensures args[..] == ArgumentsAfter(m, db, old(args[..]))
  {
    r := PrepareCall(DataReader, m, db, trans, args);
  }

  /**
   * A signature `Check(out bool found, out int count)`: the database returns 5 and
   * 0; the caller gets `true` for the bool and the raw 0 for the int. Had it
   * returned null for the bool, the call would throw.
   */
  lemma MarshalingExamples()
    ensures var declared := [Parameter("found", ByRef(Bool), true), Parameter("count", ByRef(Int), true)];
      && MarshaledAs([BoxedInt(5), BoxedInt(0)], declared, Ok([BoxedBool(true), BoxedInt(0)]))
      && MarshaledAs([Null, BoxedInt(0)], declared, Err(ReturnedBooleanNotInt32(Null)))
  {
    var declared := [Parameter("found", ByRef(Bool), true), Parameter("count", ByRef(Int), true)];
    assert ExpectsBool(declared, 0) && !ExpectsBool(declared, 1);
    assert MarshalValue(Null, ExpectsBool(declared, 0)) == Err(ReturnedBooleanNotInt32(Null));
  }
}
