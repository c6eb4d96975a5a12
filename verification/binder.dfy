/**
 * GetDbParameters: turns a method's declared parameters into the ordered list of
 * database parameters for the stored procedure call. Transaction parameters are
 * skipped; every other parameter is bound, in order, and advances the argument
 * cursor by one, whether it is an input or an output. A bool input's argument is
 * replaced in the caller's array by a boxed 1 or 0 before it is bound.
 *
 * `BindPrefix` is the specification: the state after the first n parameters.
 * `GetDbParameters` is the loop that works on the caller's array in place.
 */
module Binder {
  import opened Wrappers
  import opened Platform
  import opened TypeMapping
  import opened Metadata
  import opened Naming

  /** The database engine behind the IDatabase collaborator. */
  datatype Engine = SqlServer | OtherEngine

  /** The IDatabase collaborator: only its engine matters to the binder. */
  datatype Database = Database(engine: Engine)

  /**
   * An IDataParameter as created by IDatabase.CreateParameter; `scale` is the
   * SqlParameter.Scale the binder may set (None when left at the engine's default).
   */
  datatype BoundParameter =
    BoundParameter(name: string, dbType: DbType, value: Value, direction: Direction, scale: Option<nat>)

  /** IDatabase.CreateParameter: the collaborator's factory. */
  function CreateParameter(db: Database, name: string, dbType: DbType, value: Value, direction: Direction): (r: BoundParameter)
    ensures r.name == name && r.dbType == dbType && r.value == value && r.direction == direction
    ensures r.scale == None
  {
    BoundParameter(name, dbType, value, direction, None)
  }

  /** The parameter's type is IDbTransaction or implements it. */
  predicate IsTransactionType(t: ClrType) {
    t == DbTransaction || (t.Other? && t.implementsDbTransaction)
  }

  /** The parameter is an input whose declared type is exactly bool (not `ref bool`). */
  predicate IsBoolInput(q: Parameter) {
    q.paramType == Bool && !q.isOut
  }

  /** The integer a bool argument is replaced with. */
  function BoolToInt(b: bool): int32 {
    if b then 1 else 0
  }

  /**
   * Binding the parameter `q` with the cursor at `k` succeeds: its name and type
   * map, an input has an argument at position k, and a bool input's argument is
   * a boxed bool.
   */
  predicate CanBind(q: Parameter, k: nat, omitDirection: bool, omitType: bool, args: seq<Value>) {
    && ParameterName(q, omitDirection, omitType).Ok?
    && MapClrTypeToDbType(q.paramType).Ok?
    && (!q.isOut ==> k < |args|)
    && (IsBoolInput(q) ==> args[k].BoxedBool?)
  }

  /**
   * `p` is what the parameter `q` binds to with the cursor at `k`, where `args`
   * holds the arguments after substitution: the generated name, the mapped
   * DbType, the direction, the argument at position k for an input and null for
   * an output, and a scale of 6 exactly for a decimal output on SQL Server.
   */
  predicate BindsTo(q: Parameter, k: nat, omitDirection: bool, omitType: bool, db: Database,
                    args: seq<Value>, p: BoundParameter)
  {
    && ParameterName(q, omitDirection, omitType) == Ok(p.name)
    && MapClrTypeToDbType(q.paramType) == Ok(p.dbType)
    && p.direction == (if q.isOut then Output else Input)
    && (if q.isOut then p.value == Null else k < |args| && p.value == args[k])
    && p.scale == (if q.isOut && p.dbType == DbType.Decimal && db.engine == SqlServer then Some(6) else None)
  }

  /**
   * The exception binding `q` with the cursor at `k` throws when it cannot be
   * bound, checked in the order the loop body meets them: the name (an unmapped
   * type token, then an empty name), then for a bool input a missing argument and
   * the unboxing, then the DbType mapping, and last a missing input argument.
   */
  function BindError(q: Parameter, k: nat, omitDirection: bool, omitType: bool, args: seq<Value>): Error {
    if ParameterName(q, omitDirection, omitType).Err? then ParameterName(q, omitDirection, omitType).error
    else if IsBoolInput(q) && k >= |args| then IndexOutOfRange
    else if IsBoolInput(q) && UnboxBool(args[k]).Err? then UnboxBool(args[k]).error
    else if MapClrTypeToDbType(q.paramType).Err? then MapClrTypeToDbType(q.paramType).error
    else IndexOutOfRange
  }

  /**
   * One pass of the loop body for a non-transaction parameter, with the cursor at
   * `k`: the bound parameter and the arguments after the bool substitution.
   */
  function BindParameter(q: Parameter, k: nat, omitDirection: bool, omitType: bool, db: Database,
                         args: seq<Value>): (r: Result<(BoundParameter, seq<Value>), Error>)
    ensures r.Ok? <==> CanBind(q, k, omitDirection, omitType, args)
    ensures r.Err? ==> r.error == BindError(q, k, omitDirection, omitType, args)
    ensures r.Ok? ==> BindsTo(q, k, omitDirection, omitType, db, r.value.1, r.value.0)
    ensures r.Ok? ==> |r.value.1| == |args|
    ensures r.Ok? ==> forall j :: 0 <= j < |args| ==>
              r.value.1[j] == (if j == k && IsBoolInput(q) then BoxedInt(BoolToInt(args[j].b)) else args[j])
  {
    var isInput := !q.isOut;
    match ParameterName(q, omitDirection, omitType)
    case Err(e) => Err(e)
    case Ok(name) =>
      var substituted: Result<seq<Value>, Error> :=
        if q.paramType == Bool && isInput then
          if k >= |args| then Err(IndexOutOfRange)
          else match UnboxBool(args[k])
            case Err(e) => Err(e)
            case Ok(b) => Ok(args[k := BoxedInt(BoolToInt(b))])
        else Ok(args);
      match substituted
      case Err(e) => Err(e)
      case Ok(args') =>
        match MapClrTypeToDbType(q.paramType)
        case Err(e) => Err(e)
        case Ok(dbType) =>
          if isInput && k >= |args'| then Err(IndexOutOfRange)
          else
            var p := CreateParameter(db, name, dbType, if isInput then args'[k] else Null,
                                     if isInput then Input else Output);
            var p' := if p.direction == Output && p.dbType == DbType.Decimal && db.engine == SqlServer
                      then p.(scale := Some(6)) else p;
            Ok((p', args'))
  }

  /**
   * The binder's state: still running (parameters bound so far, the cursor, the
   * caller's arguments) or stopped by an exception (the arguments as it left them).
   */
  datatype Progress =
    | Running(bound: seq<BoundParameter>, cursor: nat, args: seq<Value>)
    | Stopped(error: Error, args: seq<Value>)
  {
    /** What GetDbParameters returns or throws. */
    function Outcome(): Result<seq<BoundParameter>, Error> {
      match this
      case Running(bound, _, _) => Ok(bound)
      case Stopped(e, _) => Err(e)
    }
  }

  /** One iteration of the loop over the declared parameters (see StepShape). */
  function Step(omitDirection: bool, omitType: bool, db: Database, s: Progress, q: Parameter): Progress {
    match s
    case Stopped(_, _) => s
    case Running(bound, cursor, args) =>
      if IsTransactionType(q.paramType) then s
      else match BindParameter(q, cursor, omitDirection, omitType, db, args)
        case Err(e) => Stopped(e, args)
        case Ok((p, args')) => Running(bound + [p], cursor + 1, args')
  }

  /** The state after the first n declared parameters, starting from the arguments a0. */
  function BindPrefix(m: MethodSig, db: Database, n: nat, a0: seq<Value>): Progress
    requires n <= |m.parameters|
  {
    if n == 0 then Running([], 0, a0)
    else Step(OmitDirection(m), OmitType(m), db, BindPrefix(m, db, n - 1, a0), m.parameters[n - 1])
  }

  /** The state after all declared parameters. */
  function Bind(m: MethodSig, db: Database, a0: seq<Value>): Progress {
    BindPrefix(m, db, |m.parameters|, a0)
  }

  /**
   * A stopped binder and a transaction parameter change nothing; otherwise one
   * step appends at most one bound parameter, moves the cursor with it, and keeps
   * the number of arguments.
   */
  lemma StepShape(omitDirection: bool, omitType: bool, db: Database, s: Progress, q: Parameter)
    ensures var r := Step(omitDirection, omitType, db, s, q);
      && (s.Stopped? || IsTransactionType(q.paramType) ==> r == s)
      && |r.args| == |s.args|
      && (r.Running? ==> s.Running? && s.bound <= r.bound && |r.bound| <= |s.bound| + 1)
      && (r.Running? ==> r.cursor - |r.bound| == s.cursor - |s.bound|)
  {
  }

  /**
   * After the first n parameters there are as many arguments as were passed and,
   * while running, at most one bound parameter per declared parameter, with the
   * cursor equal to their number.
   */
  lemma {:induction false} BindPrefixShape(m: MethodSig, db: Database, n: nat, a0: seq<Value>)
    requires n <= |m.parameters|
    ensures var s := BindPrefix(m, db, n, a0);
      && |s.args| == |a0|
      && (s.Running? ==> s.cursor == |s.bound| <= n)
  {
    if n > 0 {
      BindPrefixShape(m, db, n - 1, a0);
      StepShape(OmitDirection(m), OmitType(m), db, BindPrefix(m, db, n - 1, a0), m.parameters[n - 1]);
    }
  }

  /** Once an exception is thrown, the remaining parameters change nothing. */
  lemma {:induction false} StoppedPersists(m: MethodSig, db: Database, n: nat, n': nat, a0: seq<Value>)
    requires n <= n' <= |m.parameters|
    requires BindPrefix(m, db, n, a0).Stopped?
    ensures BindPrefix(m, db, n', a0) == BindPrefix(m, db, n, a0)
  {
    if n < n' {
      StoppedPersists(m, db, n, n' - 1, a0);
      var prev := BindPrefix(m, db, n' - 1, a0);
      assert BindPrefix(m, db, n', a0) == Step(OmitDirection(m), OmitType(m), db, prev, m.parameters[n' - 1]);
    }
  }

  /** A parameter that throws stops the binder for good, with the arguments as they were. */
  lemma ThrowsAt(m: MethodSig, db: Database, i: nat, a0: seq<Value>,
                 bound: seq<BoundParameter>, k: nat, args: seq<Value>, e: Error)
    requires i < |m.parameters|
    requires BindPrefix(m, db, i, a0) == Running(bound, k, args)
    requires !IsTransactionType(m.parameters[i].paramType)
    requires BindParameter(m.parameters[i], k, OmitDirection(m), OmitType(m), db, args) == Err(e)
    ensures Bind(m, db, a0) == Stopped(e, args)
  {
    StoppedPersists(m, db, i + 1, |m.parameters|, a0);
  }

  /** A transaction parameter leaves the running state as it is. */
  lemma SkipsTransaction(m: MethodSig, db: Database, i: nat, a0: seq<Value>)
    requires i < |m.parameters|
    requires IsTransactionType(m.parameters[i].paramType)
    ensures BindPrefix(m, db, i + 1, a0) == BindPrefix(m, db, i, a0)
  {
  }

  /** A parameter that binds extends the running state by its bound parameter. */
  lemma BindsNext(m: MethodSig, db: Database, i: nat, a0: seq<Value>,
                  bound: seq<BoundParameter>, k: nat, args: seq<Value>, p: BoundParameter, args': seq<Value>)
    requires i < |m.parameters|
    requires BindPrefix(m, db, i, a0) == Running(bound, k, args)
    requires !IsTransactionType(m.parameters[i].paramType)
    requires BindParameter(m.parameters[i], k, OmitDirection(m), OmitType(m), db, args) == Ok((p, args'))
    ensures BindPrefix(m, db, i + 1, a0) == Running(bound + [p], k + 1, args')
  {
  }

  /**
   * The body of GetDbParameters' loop for one non-transaction parameter, with the
   * cursor at `k`: it may overwrite `args[k]` and returns the created parameter,
   * as BindParameter describes; an exception leaves the array as it was.
   */
  method BindParameterInPlace(q: Parameter, k: nat, omitDirection: bool, omitType: bool, db: Database,
                              args: array<Value>) returns (r: Result<BoundParameter, Error>)
    modifies args
    ensures BindParameter(q, k, omitDirection, omitType, db, old(args[..]))
            == (if r.Ok? then Ok((r.value, args[..])) else Err(r.error))
    ensures r.Err? ==> args[..] == old(args[..])
  {
    var isInputParameter := !q.isOut;
    var parameterName := ParameterName(q, omitDirection, omitType);
    if parameterName.Err? {
      return Err(parameterName.error);
    }
    if q.paramType == Bool && isInputParameter {
      if k >= args.Length {
        return Err(IndexOutOfRange);
      }
      var b := UnboxBool(args[k]);
      if b.Err? {
        return Err(b.error);
      }
      args[k] := BoxedInt(BoolToInt(b.value));
    }
    var dbType := MapClrTypeToDbType(q.paramType);
    if dbType.Err? {
      return Err(dbType.error);
    }
    if isInputParameter && k >= args.Length {
      return Err(IndexOutOfRange);
    }
    var newParam := CreateParameter(db, parameterName.value, dbType.value,
                                    if isInputParameter then args[k] else Null,
                                    if isInputParameter then Input else Output);
    if newParam.direction == Output && newParam.dbType == DbType.Decimal && db.engine == SqlServer {
      newParam := newParam.(scale := Some(6));
    }
    r := Ok(newParam);
  }

  /**
   * One pass of GetDbParameters' loop over the non-transaction parameter at
   * position i: the running state either grows by the parameter's binding or the
   * binder stops with the exception and the array as it is.
   */
  method BindNextInPlace(m: MethodSig, db: Database, i: nat, ghost a0: seq<Value>, ghost bound: seq<BoundParameter>,
                         k: nat, omitDirection: bool, omitType: bool, args: array<Value>)
    returns (r: Result<BoundParameter, Error>)
    requires i < |m.parameters| && !IsTransactionType(m.parameters[i].paramType)
    requires omitDirection == OmitDirection(m) && omitType == OmitType(m)
    requires BindPrefix(m, db, i, a0) == Running(bound, k, args[..])
    modifies args
    ensures r.Ok? ==> BindPrefix(m, db, i + 1, a0) == Running(bound + [r.value], k + 1, args[..])
    ensures r.Err? ==> Bind(m, db, a0) == Stopped(r.error, args[..])
  {
    ghost var before := args[..];
    r := BindParameterInPlace(m.parameters[i], k, omitDirection, omitType, db, args);
    if r.Err? {
      ThrowsAt(m, db, i, a0, bound, k, before, r.error);
    } else {
      BindsNext(m, db, i, a0, bound, k, before, r.value, args[..]);
    }
  }

  /**
   * GetDbParameters: binds the parameters of `m` against the caller's array
   * `args`, overwriting bool input arguments with 1 or 0 in place. The returned
   * list (or the exception) and the array's new contents are those of Bind.
   */
  method GetDbParameters(m: MethodSig, db: Database, args: array<Value>)
    returns (r: Result<seq<BoundParameter>, Error>)
    modifies args
    ensures args[..] == Bind(m, db, old(args[..])).args
    ensures r == Bind(m, db, old(args[..])).Outcome()
  {
    ghost var a0 := args[..];
    var dbParameters: seq<BoundParameter> := [];
    var parameters := m.parameters;
    var omitDirection := OmitDirection(m);
    var omitType := OmitType(m);
    var inputArgIndex: nat := 0;
    var i := 0;
    while i < |parameters|
      invariant 0 <= i <= |parameters|
      invariant BindPrefix(m, db, i, a0) == Running(dbParameters, inputArgIndex, args[..])
    {
      var paramInfo := parameters[i];
      if !IsTransactionType(paramInfo.paramType) {
        var newParam := BindNextInPlace(m, db, i, a0, dbParameters, inputArgIndex, omitDirection, omitType, args);
        if newParam.Err? {
          return Err(newParam.error);
        }
        dbParameters := dbParameters + [newParam.value];
        inputArgIndex := inputArgIndex + 1;
      } else {
        SkipsTransaction(m, db, i, a0);
      }
      i := i + 1;
    }
    r := Ok(dbParameters);
  }
}
