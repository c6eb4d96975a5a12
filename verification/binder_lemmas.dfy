/**
 * What GetDbParameters computes, in closed form. Let `Bindable(ps)` be the
 * declared parameters that are not transactions, in order. Binding succeeds
 * exactly when each of them can be bound with the cursor at its own position in
 * that list; then the k-th bound parameter is the k-th bindable parameter and an
 * input reads argument k, so an output parameter also takes up an argument
 * position. The caller's arguments change only at the positions of bool inputs.
 */
module BinderLemmas {
  import opened Wrappers
  import opened Platform
  import opened TypeMapping
  import opened Metadata
  import opened Naming
  import opened Binder
  import EntityNames

  /** The declared parameters the loop does not skip, in declaration order. */
  function Bindable(ps: seq<Parameter>): (r: seq<Parameter>)
    ensures |r| <= |ps|
  {
    if |ps| == 0 then []
    else
      var last := ps[|ps| - 1];
      assert ps == ps[..|ps| - 1] + [last];
      Bindable(ps[..|ps| - 1]) + (if IsTransactionType(last.paramType) then [] else [last])
  }

  /**
   * The argument at position j after binding, when every bindable parameter up to
   * position j was bound: a bool input's boxed bool becomes a boxed 1 or 0, every
   * other argument is unchanged.
   */
  function ArgumentAfter(nt: seq<Parameter>, a0: seq<Value>, j: nat): Value
    requires j < |a0|
  {
    if j < |nt| && IsBoolInput(nt[j]) && a0[j].BoxedBool? then BoxedInt(BoolToInt(a0[j].b)) else a0[j]
  }

  /** The closed form of the state after the first n parameters. */
  predicate Characterized(m: MethodSig, db: Database, n: nat, a0: seq<Value>)
    requires n <= |m.parameters|
  {
    var s := BindPrefix(m, db, n, a0);
    var nt := Bindable(m.parameters[..n]);
    var od := OmitDirection(m);
    var ot := OmitType(m);
    && |s.args| == |a0|
    && (s.Running? <==> forall k :: 0 <= k < |nt| ==> CanBind(nt[k], k, od, ot, a0))
    && (s.Running? ==> s.cursor == |s.bound| == |nt|)
    && (s.Running? ==> forall k :: 0 <= k < |s.bound| ==> BindsTo(nt[k], k, od, ot, db, s.args, s.bound[k]))
    && (s.Running? ==> forall j :: 0 <= j < |a0| ==> s.args[j] == ArgumentAfter(nt, a0, j))
    && (s.Stopped? ==> forall j :: 0 <= j < |a0| ==> s.args[j] == a0[j] || s.args[j] == ArgumentAfter(nt, a0, j))
  }

  /** Extending the prefix by one parameter extends the bindable list by it, unless it is a transaction. */
  lemma BindableStep(ps: seq<Parameter>, n: nat)
    requires 0 < n <= |ps|
    ensures Bindable(ps[..n]) == Bindable(ps[..n - 1])
              + (if IsTransactionType(ps[n - 1].paramType) then [] else [ps[n - 1]])
  {
    assert ps[..n][..n - 1] == ps[..n - 1];
  }

  /** The closed form holds after every prefix of the parameter list. */
  lemma {:induction false} BindPrefixCharacterized(m: MethodSig, db: Database, n: nat, a0: seq<Value>)
    requires n <= |m.parameters|
    ensures Characterized(m, db, n, a0)
  {
    if n > 0 {
      BindPrefixCharacterized(m, db, n - 1, a0);
      BindableStep(m.parameters, n);
      var prev := BindPrefix(m, db, n - 1, a0);
      var q := m.parameters[n - 1];
      if prev.Stopped? {
        StoppedStepCharacterized(m, db, n, a0);
      } else if IsTransactionType(q.paramType) {
        SkippedStepCharacterized(m, db, n, a0);
      } else if BindParameter(q, prev.cursor, OmitDirection(m), OmitType(m), db, prev.args).Err? {
        FailingStepCharacterized(m, db, n, a0);
      } else {
        BindingStepCharacterized(m, db, n, a0);
      }
    }
  }

  /** A stopped binder stays stopped and leaves the arguments alone. */
  lemma StoppedStepCharacterized(m: MethodSig, db: Database, n: nat, a0: seq<Value>)
    requires 0 < n <= |m.parameters|
    requires Characterized(m, db, n - 1, a0)
    requires BindPrefix(m, db, n - 1, a0).Stopped?
    requires Bindable(m.parameters[..n]) == Bindable(m.parameters[..n - 1])
               + (if IsTransactionType(m.parameters[n - 1].paramType) then [] else [m.parameters[n - 1]])
    ensures Characterized(m, db, n, a0)
  {
    var od := OmitDirection(m);
    var ot := OmitType(m);
    var s := BindPrefix(m, db, n, a0);
    var ntPrev := Bindable(m.parameters[..n - 1]);
    var nt := Bindable(m.parameters[..n]);
    assert s == BindPrefix(m, db, n - 1, a0);
    var k :| 0 <= k < |ntPrev| && !CanBind(ntPrev[k], k, od, ot, a0);
    assert nt[k] == ntPrev[k];
    forall j | 0 <= j < |a0|
      ensures s.args[j] == a0[j] || s.args[j] == ArgumentAfter(nt, a0, j)
    {
      if s.args[j] != a0[j] {
        assert s.args[j] == ArgumentAfter(ntPrev, a0, j);
        assert j < |ntPrev| && nt[j] == ntPrev[j];
      }
    }
  }

  /** A transaction parameter is skipped: nothing is bound and the cursor stays. */
  lemma SkippedStepCharacterized(m: MethodSig, db: Database, n: nat, a0: seq<Value>)
    requires 0 < n <= |m.parameters|
    requires Characterized(m, db, n - 1, a0)
    requires BindPrefix(m, db, n - 1, a0).Running?
    requires IsTransactionType(m.parameters[n - 1].paramType)
    requires Bindable(m.parameters[..n]) == Bindable(m.parameters[..n - 1])
    ensures Characterized(m, db, n, a0)
  {
    assert BindPrefix(m, db, n, a0) == BindPrefix(m, db, n - 1, a0);
  }

  /** A parameter that cannot be bound stops the binder, arguments untouched. */
  lemma FailingStepCharacterized(m: MethodSig, db: Database, n: nat, a0: seq<Value>)
    requires 0 < n <= |m.parameters|
    requires Characterized(m, db, n - 1, a0)
    requires BindPrefix(m, db, n - 1, a0).Running?
    requires !IsTransactionType(m.parameters[n - 1].paramType)
    requires BindParameter(m.parameters[n - 1], BindPrefix(m, db, n - 1, a0).cursor, OmitDirection(m), OmitType(m),
                           db, BindPrefix(m, db, n - 1, a0).args).Err?
    requires Bindable(m.parameters[..n]) == Bindable(m.parameters[..n - 1]) + [m.parameters[n - 1]]
    ensures Characterized(m, db, n, a0)
  {
    var od := OmitDirection(m);
    var ot := OmitType(m);
    var prev := BindPrefix(m, db, n - 1, a0);
    var s := BindPrefix(m, db, n, a0);
    var ntPrev := Bindable(m.parameters[..n - 1]);
    var nt := Bindable(m.parameters[..n]);
    var q := m.parameters[n - 1];
    var k := prev.cursor;
    assert s.Stopped? && s.args == prev.args;
    assert k < |a0| ==> prev.args[k] == a0[k] by {
      if k < |a0| { assert prev.args[k] == ArgumentAfter(ntPrev, a0, k); }
    }
    assert !CanBind(nt[k], k, od, ot, a0);
    forall j | 0 <= j < |a0|
      ensures s.args[j] == a0[j] || s.args[j] == ArgumentAfter(nt, a0, j)
    {
      assert s.args[j] == ArgumentAfter(ntPrev, a0, j);
      if j < |ntPrev| { assert nt[j] == ntPrev[j]; }
    }
  }

  /** A parameter that can be bound appends its bound parameter and advances the cursor. */
  lemma BindingStepCharacterized(m: MethodSig, db: Database, n: nat, a0: seq<Value>)
    requires 0 < n <= |m.parameters|
    requires Characterized(m, db, n - 1, a0)
    requires BindPrefix(m, db, n - 1, a0).Running?
    requires !IsTransactionType(m.parameters[n - 1].paramType)
    requires BindParameter(m.parameters[n - 1], BindPrefix(m, db, n - 1, a0).cursor, OmitDirection(m), OmitType(m),
                           db, BindPrefix(m, db, n - 1, a0).args).Ok?
    requires Bindable(m.parameters[..n]) == Bindable(m.parameters[..n - 1]) + [m.parameters[n - 1]]
    ensures Characterized(m, db, n, a0)
  {
    var od := OmitDirection(m);
    var ot := OmitType(m);
    var prev := BindPrefix(m, db, n - 1, a0);
    var ntPrev := Bindable(m.parameters[..n - 1]);
    var q := m.parameters[n - 1];
    var k := prev.cursor;
    var (p, args') := BindParameter(q, k, od, ot, db, prev.args).value;
    var nt := Bindable(m.parameters[..n]);
    assert nt == ntPrev + [q];
    assert BindPrefix(m, db, n, a0) == Running(prev.bound + [p], k + 1, args');
    assert k < |a0| ==> prev.args[k] == a0[k] by {
      if k < |a0| { assert prev.args[k] == ArgumentAfter(ntPrev, a0, k); }
    }
    assert CanBind(q, k, od, ot, a0);
    AppendKeepsCanBind(ntPrev, q, od, ot, a0);
    AppendKeepsBindsTo(ntPrev, q, od, ot, db, prev.bound, prev.args, p, args');
    AppendKeepsArguments(ntPrev, q, a0, prev.args, args');
  }

  /** Appending a bindable parameter keeps the earlier ones bindable. */
  lemma AppendKeepsCanBind(ntPrev: seq<Parameter>, q: Parameter, od: bool, ot: bool, a0: seq<Value>)
    requires forall i :: 0 <= i < |ntPrev| ==> CanBind(ntPrev[i], i, od, ot, a0)
    requires CanBind(q, |ntPrev|, od, ot, a0)
    ensures forall i :: 0 <= i < |ntPrev + [q]| ==> CanBind((ntPrev + [q])[i], i, od, ot, a0)
  {
  }

  /**
   * Appending the next bound parameter keeps the earlier ones bound as they were:
   * the only argument that changed is the one at the new cursor position.
   */
  lemma AppendKeepsBindsTo(ntPrev: seq<Parameter>, q: Parameter, od: bool, ot: bool, db: Database,
                           bound: seq<BoundParameter>, args: seq<Value>, p: BoundParameter, args': seq<Value>)
    requires |bound| == |ntPrev|
    requires forall i :: 0 <= i < |bound| ==> BindsTo(ntPrev[i], i, od, ot, db, args, bound[i])
    requires BindsTo(q, |ntPrev|, od, ot, db, args', p)
    requires |args'| == |args|
    requires forall j :: 0 <= j < |args| && j != |ntPrev| ==> args'[j] == args[j]
    ensures forall i :: 0 <= i < |bound + [p]| ==> BindsTo((ntPrev + [q])[i], i, od, ot, db, args', (bound + [p])[i])
  {
    forall i | 0 <= i < |bound + [p]|
      ensures BindsTo((ntPrev + [q])[i], i, od, ot, db, args', (bound + [p])[i])
    {
      if i < |bound| {
        assert (ntPrev + [q])[i] == ntPrev[i] && (bound + [p])[i] == bound[i];
        assert BindsTo(ntPrev[i], i, od, ot, db, args, bound[i]);
      }
    }
  }

  /** After binding the next parameter, every argument is as ArgumentAfter says. */
  lemma AppendKeepsArguments(ntPrev: seq<Parameter>, q: Parameter, a0: seq<Value>, args: seq<Value>, args': seq<Value>)
    requires |args| == |a0| == |args'|
    requires forall j :: 0 <= j < |a0| ==> args[j] == ArgumentAfter(ntPrev, a0, j)
    requires |ntPrev| < |args| && IsBoolInput(q) ==> args[|ntPrev|].BoxedBool?
    requires forall j :: 0 <= j < |args| ==>
               args'[j] == (if j == |ntPrev| && IsBoolInput(q) then BoxedInt(BoolToInt(args[j].b)) else args[j])
    ensures forall j :: 0 <= j < |a0| ==> args'[j] == ArgumentAfter(ntPrev + [q], a0, j)
  {
    var nt := ntPrev + [q];
    forall j | 0 <= j < |a0|
      ensures args'[j] == ArgumentAfter(nt, a0, j)
    {
      assert args[j] == ArgumentAfter(ntPrev, a0, j);
      if j < |ntPrev| {
        assert nt[j] == ntPrev[j];
      }
    }
  }

  /**
   * The position in `nt` of the first parameter that cannot be bound with the
   * cursor at its own position, or |nt| when every one of them can.
   */
  function FirstUnbindable(nt: seq<Parameter>, od: bool, ot: bool, a0: seq<Value>): (r: nat)
    ensures r <= |nt|
  {
    if |nt| == 0 then 0
    else
      var f := FirstUnbindable(nt[..|nt| - 1], od, ot, a0);
      if f < |nt| - 1 then f
      else if CanBind(nt[|nt| - 1], |nt| - 1, od, ot, a0) then |nt|
      else |nt| - 1
  }

  /** FirstUnbindable is the least position that cannot be bound. */
  lemma {:induction false} FirstUnbindableIsLeast(nt: seq<Parameter>, od: bool, ot: bool, a0: seq<Value>)
    ensures forall k :: 0 <= k < FirstUnbindable(nt, od, ot, a0) ==> CanBind(nt[k], k, od, ot, a0)
    ensures FirstUnbindable(nt, od, ot, a0) < |nt| ==>
              !CanBind(nt[FirstUnbindable(nt, od, ot, a0)], FirstUnbindable(nt, od, ot, a0), od, ot, a0)
  {
    if |nt| > 0 {
      var init := nt[..|nt| - 1];
      FirstUnbindableIsLeast(init, od, ot, a0);
      forall k | 0 <= k < FirstUnbindable(nt, od, ot, a0)
        ensures CanBind(nt[k], k, od, ot, a0)
      {
        if k < |init| { assert nt[k] == init[k]; }
      }
    }
  }

  /** Appending a parameter moves the first unbindable position only when there was none. */
  lemma FirstUnbindableAppend(nt: seq<Parameter>, q: Parameter, od: bool, ot: bool, a0: seq<Value>)
    ensures FirstUnbindable(nt + [q], od, ot, a0)
            == if FirstUnbindable(nt, od, ot, a0) < |nt| then FirstUnbindable(nt, od, ot, a0)
               else if CanBind(q, |nt|, od, ot, a0) then |nt| + 1
               else |nt|
  {
    assert (nt + [q])[..|nt|] == nt;
  }

  /**
   * The closed form of a stopped state after the first n parameters: the binder
   * stopped at the first bindable parameter that cannot be bound, with the
   * exception that parameter throws on the original arguments, and only the
   * arguments before it have been substituted.
   */
  predicate StoppedCharacterized(m: MethodSig, db: Database, n: nat, a0: seq<Value>)
    requires n <= |m.parameters|
  {
    var s := BindPrefix(m, db, n, a0);
    var nt := Bindable(m.parameters[..n]);
    var od := OmitDirection(m);
    var ot := OmitType(m);
    var k0 := FirstUnbindable(nt, od, ot, a0);
    && |s.args| == |a0|
    && (s.Stopped? ==>
      && k0 < |nt|
      && s.error == BindError(nt[k0], k0, od, ot, a0)
      && forall j :: 0 <= j < |a0| ==> s.args[j] == (if j < k0 then ArgumentAfter(nt, a0, j) else a0[j]))
  }

  /** The stopped closed form holds after every prefix of the parameter list. */
  lemma {:induction false} BindPrefixStopped(m: MethodSig, db: Database, n: nat, a0: seq<Value>)
    requires n <= |m.parameters|
    ensures StoppedCharacterized(m, db, n, a0)
  {
    BindPrefixShape(m, db, n, a0);
    if n > 0 && BindPrefix(m, db, n, a0).Stopped? {
      BindableStep(m.parameters, n);
      if BindPrefix(m, db, n - 1, a0).Stopped? {
        BindPrefixStopped(m, db, n - 1, a0);
        StoppedStaysCharacterized(m, db, n, a0);
      } else {
        BindPrefixCharacterized(m, db, n - 1, a0);
        StoppingStepCharacterized(m, db, n, a0);
      }
    }
  }

  /** A binder that had stopped is still described by the same first unbindable parameter. */
  lemma StoppedStaysCharacterized(m: MethodSig, db: Database, n: nat, a0: seq<Value>)
    requires 0 < n <= |m.parameters|
    requires StoppedCharacterized(m, db, n - 1, a0)
    requires BindPrefix(m, db, n - 1, a0).Stopped?
    requires Bindable(m.parameters[..n]) == Bindable(m.parameters[..n - 1])
               + (if IsTransactionType(m.parameters[n - 1].paramType) then [] else [m.parameters[n - 1]])
    ensures StoppedCharacterized(m, db, n, a0)
  {
    var od := OmitDirection(m);
    var ot := OmitType(m);
    var s := BindPrefix(m, db, n, a0);
    var ntPrev := Bindable(m.parameters[..n - 1]);
    var nt := Bindable(m.parameters[..n]);
    var k0 := FirstUnbindable(ntPrev, od, ot, a0);
    assert s == BindPrefix(m, db, n - 1, a0);
    if nt != ntPrev {
      FirstUnbindableAppend(ntPrev, m.parameters[n - 1], od, ot, a0);
    }
    assert FirstUnbindable(nt, od, ot, a0) == k0;
    assert nt[k0] == ntPrev[k0];
    forall j | 0 <= j < |a0| && j < k0
      ensures ArgumentAfter(nt, a0, j) == ArgumentAfter(ntPrev, a0, j)
    {
      assert nt[j] == ntPrev[j];
    }
  }

  /**
   * A running binder that meets a parameter it cannot bind stops there: that
   * parameter is the first unbindable one, and it throws the same exception on
   * the original arguments as on the substituted ones.
   */
  lemma StoppingStepCharacterized(m: MethodSig, db: Database, n: nat, a0: seq<Value>)
    requires 0 < n <= |m.parameters|
    requires Characterized(m, db, n - 1, a0)
    requires BindPrefix(m, db, n - 1, a0).Running?
    requires BindPrefix(m, db, n, a0).Stopped?
    requires Bindable(m.parameters[..n]) == Bindable(m.parameters[..n - 1])
               + (if IsTransactionType(m.parameters[n - 1].paramType) then [] else [m.parameters[n - 1]])
    ensures StoppedCharacterized(m, db, n, a0)
  {
    var od := OmitDirection(m);
    var ot := OmitType(m);
    var prev := BindPrefix(m, db, n - 1, a0);
    var ntPrev := Bindable(m.parameters[..n - 1]);
    var q := m.parameters[n - 1];
    var r := BindParameter(q, prev.cursor, od, ot, db, prev.args);
    assert !IsTransactionType(q.paramType) && r.Err?;
    assert BindPrefix(m, db, n, a0) == Stopped(r.error, prev.args);
    StopsAtFirstUnbindable(ntPrev, q, od, ot, a0, prev.args);
  }

  /**
   * The list-level step behind StoppingStepCharacterized: when every earlier
   * parameter was bound and `q`, next, cannot be, `q` is the first unbindable
   * parameter, its exception does not depend on the earlier substitutions, and
   * the arguments from its position on are the original ones.
   */
  lemma StopsAtFirstUnbindable(ntPrev: seq<Parameter>, q: Parameter, od: bool, ot: bool, a0: seq<Value>, args: seq<Value>)
    requires forall k :: 0 <= k < |ntPrev| ==> CanBind(ntPrev[k], k, od, ot, a0)
    requires |args| == |a0|
    requires forall j :: 0 <= j < |a0| ==> args[j] == ArgumentAfter(ntPrev, a0, j)
    requires !CanBind(q, |ntPrev|, od, ot, args)
    ensures var nt := ntPrev + [q];
      && FirstUnbindable(nt, od, ot, a0) == |ntPrev|
      && BindError(q, |ntPrev|, od, ot, args) == BindError(q, |ntPrev|, od, ot, a0)
      && forall j :: 0 <= j < |a0| ==> args[j] == (if j < |ntPrev| then ArgumentAfter(nt, a0, j) else a0[j])
  {
    var k := |ntPrev|;
    var nt := ntPrev + [q];
    assert k < |a0| ==> args[k] == a0[k] by {
      if k < |a0| { assert args[k] == ArgumentAfter(ntPrev, a0, k); }
    }
    FirstUnbindableIsLeast(ntPrev, od, ot, a0);
    FirstUnbindableAppend(ntPrev, q, od, ot, a0);
    forall j | 0 <= j < |a0|
      ensures args[j] == (if j < k then ArgumentAfter(nt, a0, j) else a0[j])
    {
      assert args[j] == ArgumentAfter(ntPrev, a0, j);
      if j < k { assert nt[j] == ntPrev[j]; }
    }
  }

  /**
   * GetDbParameters in closed form. It succeeds exactly when every bindable
   * parameter can be bound with the cursor at its own position; then it binds one
   * parameter per bindable parameter, in order, with the cursor ending at their
   * number, and the k-th input reads argument k after substitution. Whatever the
   * outcome, an argument either keeps its value or is its bool input's 1 or 0.
   */
  lemma BindCharacterized(m: MethodSig, db: Database, a0: seq<Value>)
    ensures var s := Bind(m, db, a0);
      var nt := Bindable(m.parameters);
      var od := OmitDirection(m);
      var ot := OmitType(m);
      && |s.args| == |a0|
      && (s.Running? <==> forall k :: 0 <= k < |nt| ==> CanBind(nt[k], k, od, ot, a0))
      && (s.Running? ==> s.cursor == |s.bound| == |nt|)
      && (s.Running? ==> forall k :: 0 <= k < |nt| ==> BindsTo(nt[k], k, od, ot, db, s.args, s.bound[k]))
      && (s.Running? ==> forall j :: 0 <= j < |a0| ==> s.args[j] == ArgumentAfter(nt, a0, j))
      && (forall j :: 0 <= j < |a0| ==> s.args[j] == a0[j] || s.args[j] == ArgumentAfter(nt, a0, j))
  {
    assert m.parameters[..|m.parameters|] == m.parameters;
    BindPrefixCharacterized(m, db, |m.parameters|, a0);
    assert Characterized(m, db, |m.parameters|, a0);
  }

  /**
   * When GetDbParameters throws, it throws at the first bindable parameter that
   * cannot be bound with the cursor at its own position (every earlier one can),
   * with the exception that parameter throws on the arguments as passed; the
   * arguments before that position are substituted and the rest are untouched.
   */
  lemma BindStopped(m: MethodSig, db: Database, a0: seq<Value>)
    ensures var s := Bind(m, db, a0);
      var nt := Bindable(m.parameters);
      var od := OmitDirection(m);
      var ot := OmitType(m);
      var k0 := FirstUnbindable(nt, od, ot, a0);
      && |s.args| == |a0|
      && (s.Stopped? ==>
        && k0 < |nt|
        && (forall k :: 0 <= k < k0 ==> CanBind(nt[k], k, od, ot, a0))
        && !CanBind(nt[k0], k0, od, ot, a0)
        && s.error == BindError(nt[k0], k0, od, ot, a0)
        && forall j :: 0 <= j < |a0| ==> s.args[j] == (if j < k0 then ArgumentAfter(nt, a0, j) else a0[j]))
  {
    assert m.parameters[..|m.parameters|] == m.parameters;
    BindPrefixStopped(m, db, |m.parameters|, a0);
    assert StoppedCharacterized(m, db, |m.parameters|, a0);
    FirstUnbindableIsLeast(Bindable(m.parameters), OmitDirection(m), OmitType(m), a0);
  }

  /**
   * A bool input followed by a byte array: the bool's argument is substituted
   * before the array's type token fails to map, so the exception leaves the
   * caller's array as [1, x].
   */
  lemma StopsAfterSubstitution(db: Database, x: Value)
    ensures Bind(FlagBlobExample(), db, [BoxedBool(true), x])
            == Stopped(CannotMapToDbTypeName(Other("byte[]", false)), [BoxedInt(1), x])
  {
    StopsAfterSubstitutionSteps(FlagBlobExample(), db, [BoxedBool(true), x], x);
  }

  /** The example above, one parameter at a time. */
  lemma StopsAfterSubstitutionSteps(m: MethodSig, db: Database, a: seq<Value>, x: Value)
    requires m == FlagBlobExample() && a == [BoxedBool(true), x]
    ensures Bind(m, db, a) == Stopped(CannotMapToDbTypeName(Other("byte[]", false)), [BoxedInt(1), x])
  {
    StopsAfterSubstitutionBindings(db, x);
    var r0 := BindParameter(m.parameters[0], 0, false, false, db, a);
    BindsNext(m, db, 0, a, [], 0, a, r0.value.0, [BoxedInt(1), x]);
    ThrowsAt(m, db, 1, a, [r0.value.0], 1, [BoxedInt(1), x], CannotMapToDbTypeName(Other("byte[]", false)));
  }

  /** The two parameters of the example above, bound one at a time. */
  lemma StopsAfterSubstitutionBindings(db: Database, x: Value)
    ensures var m := FlagBlobExample();
      var a := [BoxedBool(true), x];
      && !OmitDirection(m) && !OmitType(m)
      && BindParameter(m.parameters[0], 0, false, false, db, a).Ok?
      && BindParameter(m.parameters[0], 0, false, false, db, a).value.1 == [BoxedInt(1), x]
      && BindParameter(m.parameters[1], 1, false, false, db, [BoxedInt(1), x])
         == Err(CannotMapToDbTypeName(Other("byte[]", false)))
  {
    var m := FlagBlobExample();
    var a := [BoxedBool(true), x];
    assert AttributesOfKind(m.attributes[1..], OmitParameterDirectionKind) == [];
    assert AttributesOfKind(m.attributes[1..], OmitParameterTypeKind) == [];
    assert MapClrTypeToDbTypeName(Bool).Ok?;
    var r0 := BindParameter(m.parameters[0], 0, false, false, db, a);
    assert r0.Ok?;
    var a1 := r0.value.1;
    assert a1 == [BoxedInt(1), x] by {
      assert a1[0] == BoxedInt(1) && a1[1] == x;
    }
  }

  /** The signature of the example above: (bool flag, byte[] blob). */
  function FlagBlobExample(): MethodSig {
    MethodSig("Store",
      [ Parameter("flag", Bool, false),
        Parameter("blob", Other("byte[]", false), false) ],
      [ PackageName(EntityNames.EntityName("FILES")) ])
  }

  /**
   * The caller's array is reused by a second call exactly as it was passed to the
   * first one iff the first call bound no bool input; otherwise the second call
   * finds a boxed 1 or 0 where it expects a bool, and throws.
   */
  lemma {:induction false} RebindingSameArguments(m: MethodSig, db: Database, a0: seq<Value>)
    requires Bind(m, db, a0).Running?
    ensures var nt := Bindable(m.parameters);
      (Bind(m, db, a0).args == a0 <==> forall k :: 0 <= k < |nt| ==> !IsBoolInput(nt[k]))
    ensures Bind(m, db, Bind(m, db, a0).args).Running? <==> Bind(m, db, a0).args == a0
  {
    var nt := Bindable(m.parameters);
    var od := OmitDirection(m);
    var ot := OmitType(m);
    var a1 := Bind(m, db, a0).args;
    BindCharacterized(m, db, a0);
    BindCharacterized(m, db, a1);
    if exists k :: 0 <= k < |nt| && IsBoolInput(nt[k]) {
      var k :| 0 <= k < |nt| && IsBoolInput(nt[k]);
      assert CanBind(nt[k], k, od, ot, a0);
      assert a1[k] == BoxedInt(BoolToInt(a0[k].b));
      assert !CanBind(nt[k], k, od, ot, a1);
    } else {
      assert a1 == a0 by {
        forall j | 0 <= j < |a0| ensures a1[j] == a0[j] { assert a1[j] == ArgumentAfter(nt, a0, j); }
      }
    }
  }

  /** The ordinal example below has no omit attributes and all its names can be generated. */
  lemma OrdinalExampleNames()
    ensures var m := OrdinalExample();
      && !OmitDirection(m) && !OmitType(m)
      && ParameterName(m.parameters[0], false, false).Ok?
      && ParameterName(m.parameters[2], false, false).Ok?
      && ParameterName(m.parameters[3], false, false).Ok?
  {
    var m := OrdinalExample();
    assert AttributesOfKind(m.attributes[1..], OmitParameterDirectionKind) == [];
    assert AttributesOfKind(m.attributes[1..], OmitParameterTypeKind) == [];
    assert MapClrTypeToDbTypeName(ClrType.String).Ok? && MapClrTypeToDbTypeName(ByRef(Int)).Ok?;
    assert MapClrTypeToDbTypeName(Int).Ok?;
  }

  /** The bindable parameters of the ordinal example below, after three and after four parameters. */
  lemma OrdinalExampleBindable()
    ensures var ps := OrdinalExample().parameters;
      && Bindable(ps[..3]) == [ps[0], ps[2]]
      && Bindable(ps) == [ps[0], ps[2], ps[3]]
  {
    var ps := OrdinalExample().parameters;
    assert ps[..0] == [];
    BindableStep(ps, 1);
    BindableStep(ps, 2);
    BindableStep(ps, 3);
    BindableStep(ps, 4);
    assert ps[..4] == ps;
  }

  /**
   * Argument positions follow the positions of the non-transaction parameters,
   * output parameters included. For (in string name, transaction, out int id,
   * in int count), passing the inputs only, [A, B], leaves `count` without an
   * argument, and the binder throws.
   */
  lemma InputsOnlyArgumentsFallShort(db: Database)
    ensures Bind(OrdinalExample(), db, [Boxed(1), Boxed(2)]) == Stopped(IndexOutOfRange, [Boxed(1), Boxed(2)])
  {
    InputsOnlyArgumentsSteps(OrdinalExample(), db, [Boxed(1), Boxed(2)]);
  }

  /** The example above, one parameter at a time. */
  lemma InputsOnlyArgumentsSteps(m: MethodSig, db: Database, a: seq<Value>)
    requires m == OrdinalExample() && a == [Boxed(1), Boxed(2)]
    ensures Bind(m, db, a) == Stopped(IndexOutOfRange, a)
  {
    InputsOnlyArgumentsBindings(db);
    var p0 := BindParameter(m.parameters[0], 0, false, false, db, a).value.0;
    var p2 := BindParameter(m.parameters[2], 1, false, false, db, a).value.0;
    BindsNext(m, db, 0, a, [], 0, a, p0, a);
    assert [] + [p0] == [p0];
    SkipsTransaction(m, db, 1, a);
    BindsNext(m, db, 2, a, [p0], 1, a, p2, a);
    ThrowsAt(m, db, 3, a, [p0, p2], 2, a, IndexOutOfRange);
  }

  /** The parameters of the example above, bound one at a time. */
  lemma InputsOnlyArgumentsBindings(db: Database)
    ensures var m := OrdinalExample();
      var a := [Boxed(1), Boxed(2)];
      && !OmitDirection(m) && !OmitType(m)
      && BindParameter(m.parameters[0], 0, false, false, db, a).Ok?
      && BindParameter(m.parameters[0], 0, false, false, db, a).value.1 == a
      && BindParameter(m.parameters[2], 1, false, false, db, a).Ok?
      && BindParameter(m.parameters[2], 1, false, false, db, a).value.1 == a
      && BindParameter(m.parameters[3], 2, false, false, db, a) == Err(IndexOutOfRange)
  {
    var ps := OrdinalExample().parameters;
    OrdinalExampleNames();
    var a := [Boxed(1), Boxed(2)];
    var r0 := BindParameter(ps[0], 0, false, false, db, a);
    assert r0.Ok?;
    assert r0.value.1 == a by { assert r0.value.1[0] == a[0] && r0.value.1[1] == a[1]; }
    var r2 := BindParameter(ps[2], 1, false, false, db, a);
    assert r2.Ok?;
    assert r2.value.1 == a by { assert r2.value.1[0] == a[0] && r2.value.1[1] == a[1]; }
  }

  /**
   * With an argument in the output parameter's position, [A, x, B], the same
   * signature binds `name` to A, `id` as an output with a null value, and `count`
   * to B, whatever x is.
   */
  lemma ArgumentPositionsIncludeOutputs(db: Database, x: Value)
    ensures var s := Bind(OrdinalExample(), db, [Boxed(1), x, Boxed(2)]);
      && s.Running? && |s.bound| == 3
      && s.bound[0].value == Boxed(1) && s.bound[0].direction == Input
      && s.bound[1].value == Null && s.bound[1].direction == Output
      && s.bound[2].value == Boxed(2) && s.bound[2].direction == Input
  {
    ArgumentPositionsFor(OrdinalExample(), db, [Boxed(1), x, Boxed(2)]);
  }

  /** The example above, read off the closed form. */
  lemma ArgumentPositionsFor(m: MethodSig, db: Database, b: seq<Value>)
    requires m == OrdinalExample() && |b| == 3 && b[0] == Boxed(1) && b[2] == Boxed(2)
    ensures var s := Bind(m, db, b);
      && s.Running? && |s.bound| == 3
      && s.bound[0].value == Boxed(1) && s.bound[0].direction == Input
      && s.bound[1].value == Null && s.bound[1].direction == Output
      && s.bound[2].value == Boxed(2) && s.bound[2].direction == Input
  {
    OrdinalExampleNames();
    OrdinalExampleBindable();
    var nt := Bindable(m.parameters);
    BindCharacterized(m, db, b);
    assert forall k :: 0 <= k < |nt| ==> CanBind(nt[k], k, false, false, b);
    var s := Bind(m, db, b);
    assert BindsTo(nt[0], 0, false, false, db, s.args, s.bound[0]);
    assert BindsTo(nt[1], 1, false, false, db, s.args, s.bound[1]);
    assert BindsTo(nt[2], 2, false, false, db, s.args, s.bound[2]);
    assert s.args[0] == ArgumentAfter(nt, b, 0) && s.args[2] == ArgumentAfter(nt, b, 2);
  }

  /** The signature of the ordinal examples above. */
  function OrdinalExample(): MethodSig {
    MethodSig("Save",
      [ Parameter("name", ClrType.String, false),
        Parameter("trans", DbTransaction, false),
        Parameter("id", ByRef(Int), true),
        Parameter("count", Int, false) ],
      [ PackageName(EntityNames.EntityName("ORDERS")) ])
  }
}
