// Error recovery: `catch_all`, `catch_some` and `catch_if`.  Each absorbs
// the effect's outcome into an Either and continues with a handler that
// passes a Right through and decides what to do with a Left.  Only
// failures are recovered: an exception escaping the effect is not.

module Errors {
  import opened Options
  import opened Eithers
  import opened Values
  import opened Exits
  import opened Contexts
  import opened Primitives
  import opened Runtime
  import opened RuntimeLaws

  /** Whether the absorbed outcome is a success. */
  predicate IsRightValue(e: Value)
  {
    e.EitherV? && e.either.Right?
  }

  /** `e.value` of the absorbed outcome: the success value or the error. */
  function Payload(e: Value): Value
  {
    if e.EitherV? then (match e.either case Right(v) => v case Left(err) => err) else e
  }

  /** `_handle` of `catch_all(f)`. */
  function HandleAll(f: Value -> Effect): Value -> Effect
  {
    e => if IsRightValue(e) then Succeed(Payload(e)) else f(Payload(e))
  }

  /** `_handle` of `catch_some(f)`: a Some recovery runs, Nothing re-fails with the same error. */
  function HandleSome(f: Value -> Option<Effect>): Value -> Effect
  {
    e => if IsRightValue(e) then Succeed(Payload(e))
         else match f(Payload(e))
              case Some(recovery) => recovery
              case Nothing => Fail(Payload(e))
  }

  /** `_handle` of `catch_if(predicate, recover)`. */
  function HandleIf(test: Value -> bool, recover: Value -> Effect): Value -> Effect
  {
    e => if IsRightValue(e) then Succeed(Payload(e))
         else if test(Payload(e)) then recover(Payload(e))
         else Fail(Payload(e))
  }

  /** `catch_all(f)`. */
  function CatchAll(f: Value -> Effect): Effect -> Effect
  {
    eff => FlatMap(Absorb(eff), HandleAll(f))
  }

  /** `catch_some(f)`. */
  function CatchSome(f: Value -> Option<Effect>): Effect -> Effect
  {
    eff => FlatMap(Absorb(eff), HandleSome(f))
  }

  /** `catch_if(predicate, recover)`. */
  function CatchIf(test: Value -> bool, recover: Value -> Effect): Effect -> Effect
  {
    eff => FlatMap(Absorb(eff), HandleIf(test, recover))
  }

  /** A run of a handler chain `FlatMap(Absorb(eff), handle)`, one case at a time. */
  lemma AbsorbThenHandle(s: Strategy, eff: Effect, handle: Value -> Effect, ctx: Context, st: State, fuel: nat)
    ensures var r := Eval(s, eff, ctx, st, fuel + 1);
      var c := Eval(s, FlatMap(Absorb(eff), handle), ctx, st, fuel + 1);
      (r.outcome.Ok? && r.outcome.value.ExitSuccess? ==>
        c == Eval(s, handle(EitherV(Right(r.outcome.value.value))), ctx, r.state, fuel)) &&
      (r.outcome.Ok? && r.outcome.value.ExitFailure? ==>
        c == Eval(s, handle(EitherV(Left(r.outcome.value.error))), ctx, r.state, fuel)) &&
      (!r.outcome.Ok? ==> c == r)
  {
    AbsorbNeverFails(s, eff, ctx, st, fuel + 1);
    FlatMapLaw(s, Absorb(eff), handle, handle, ctx, st, fuel + 1);
  }

  /**
   * `catch_all(f)`: a success is kept and f is never called; a failure is
   * replaced by the run of f's effect from the state the failure left; an
   * exception escaping the effect is not caught.
   */
  lemma CatchAllRecovers(s: Strategy, f: Value -> Effect, eff: Effect, ctx: Context, st: State, fuel: nat)
    ensures var r := Eval(s, eff, ctx, st, fuel + 1);
      var c := Eval(s, CatchAll(f)(eff), ctx, st, fuel + 1);
      (r.outcome.Ok? && r.outcome.value.ExitSuccess? ==> c == r) &&
      (r.outcome.Ok? && r.outcome.value.ExitFailure? ==>
        c == Eval(s, f(r.outcome.value.error), ctx, r.state, fuel)) &&
      (!r.outcome.Ok? ==> c == r)
  {
    AbsorbThenHandle(s, eff, HandleAll(f), ctx, st, fuel);
    var r := Eval(s, eff, ctx, st, fuel + 1);
    assert CatchAll(f)(eff) == FlatMap(Absorb(eff), HandleAll(f));
    if r.outcome.Ok? && r.outcome.value.ExitSuccess? {
      assert IsRightValue(EitherV(Right(r.outcome.value.value)));
      assert Payload(EitherV(Right(r.outcome.value.value))) == r.outcome.value.value;
      assert HandleAll(f)(EitherV(Right(r.outcome.value.value))) == Succeed(r.outcome.value.value);
    } else if r.outcome.Ok? {
      var err := r.outcome.value.error;
      assert !IsRightValue(EitherV(Left(err))) && Payload(EitherV(Left(err))) == err;
      assert HandleAll(f)(EitherV(Left(err))) == f(err);
    }
  }

  /**
   * `catch_some(f)`: a success is kept; on a failure f decides, and a Some
   * recovery runs from the state the failure left while Nothing re-fails
   * with the very same error; escaping exceptions pass through.
   */
  lemma CatchSomeRecoversSelectively(s: Strategy, f: Value -> Option<Effect>, eff: Effect,
                                     ctx: Context, st: State, fuel: nat)
    ensures var r := Eval(s, eff, ctx, st, fuel + 1);
      var c := Eval(s, CatchSome(f)(eff), ctx, st, fuel + 1);
      (r.outcome.Ok? && r.outcome.value.ExitSuccess? ==> c == r) &&
      (r.outcome.Ok? && r.outcome.value.ExitFailure? && f(r.outcome.value.error).Some? ==>
        c == Eval(s, f(r.outcome.value.error).value, ctx, r.state, fuel)) &&
      (r.outcome.Ok? && r.outcome.value.ExitFailure? && f(r.outcome.value.error).Nothing? ==> c == r) &&
      (!r.outcome.Ok? ==> c == r)
  {
    AbsorbThenHandle(s, eff, HandleSome(f), ctx, st, fuel);
    var r := Eval(s, eff, ctx, st, fuel + 1);
    assert CatchSome(f)(eff) == FlatMap(Absorb(eff), HandleSome(f));
    if r.outcome.Ok? && r.outcome.value.ExitSuccess? {
      assert IsRightValue(EitherV(Right(r.outcome.value.value)));
      assert Payload(EitherV(Right(r.outcome.value.value))) == r.outcome.value.value;
      assert HandleSome(f)(EitherV(Right(r.outcome.value.value))) == Succeed(r.outcome.value.value);
    } else if r.outcome.Ok? {
      var err := r.outcome.value.error;
      assert !IsRightValue(EitherV(Left(err))) && Payload(EitherV(Left(err))) == err;
      assert HandleSome(f)(EitherV(Left(err))) == if f(err).Some? then f(err).value else Fail(err);
    }
  }

  /**
   * `catch_if(predicate, recover)`: a failure is recovered exactly when the
   * predicate holds of its error; otherwise it stays the same failure.
   */
  lemma CatchIfRecoversIffPredicate(s: Strategy, test: Value -> bool, recover: Value -> Effect, eff: Effect,
                                    ctx: Context, st: State, fuel: nat)
    ensures var r := Eval(s, eff, ctx, st, fuel + 1);
      var c := Eval(s, CatchIf(test, recover)(eff), ctx, st, fuel + 1);
      (r.outcome.Ok? && r.outcome.value.ExitSuccess? ==> c == r) &&
      (r.outcome.Ok? && r.outcome.value.ExitFailure? && test(r.outcome.value.error) ==>
        c == Eval(s, recover(r.outcome.value.error), ctx, r.state, fuel)) &&
      (r.outcome.Ok? && r.outcome.value.ExitFailure? && !test(r.outcome.value.error) ==> c == r) &&
      (!r.outcome.Ok? ==> c == r)
  {
    AbsorbThenHandle(s, eff, HandleIf(test, recover), ctx, st, fuel);
    var r := Eval(s, eff, ctx, st, fuel + 1);
    assert CatchIf(test, recover)(eff) == FlatMap(Absorb(eff), HandleIf(test, recover));
    if r.outcome.Ok? && r.outcome.value.ExitSuccess? {
      assert IsRightValue(EitherV(Right(r.outcome.value.value)));
      assert Payload(EitherV(Right(r.outcome.value.value))) == r.outcome.value.value;
      assert HandleIf(test, recover)(EitherV(Right(r.outcome.value.value))) == Succeed(r.outcome.value.value);
    } else if r.outcome.Ok? {
      var err := r.outcome.value.error;
      assert !IsRightValue(EitherV(Left(err))) && Payload(EitherV(Left(err))) == err;
      assert HandleIf(test, recover)(EitherV(Left(err))) == if test(err) then recover(err) else Fail(err);
    }
  }

  /** `catch_all(f)` is `catch_some` with a handler that always recovers. */
  lemma CatchAllIsCatchSomeAlways(s: Strategy, f: Value -> Effect, eff: Effect, ctx: Context, st: State, fuel: nat)
    ensures Eval(s, CatchAll(f)(eff), ctx, st, fuel + 1)
         == Eval(s, CatchSome(e => Some(f(e)))(eff), ctx, st, fuel + 1)
  {
    CatchAllRecovers(s, f, eff, ctx, st, fuel);
    CatchSomeRecoversSelectively(s, e => Some(f(e)), eff, ctx, st, fuel);
  }

  /** `catch_if(predicate, recover)` is `catch_some` recovering exactly where the predicate holds. */
  lemma CatchIfIsCatchSomeGuarded(s: Strategy, test: Value -> bool, recover: Value -> Effect, eff: Effect,
                                  ctx: Context, st: State, fuel: nat)
    ensures Eval(s, CatchIf(test, recover)(eff), ctx, st, fuel + 1)
         == Eval(s, CatchSome(e => if test(e) then Some(recover(e)) else Nothing)(eff), ctx, st, fuel + 1)
  {
    CatchIfRecoversIffPredicate(s, test, recover, eff, ctx, st, fuel);
    CatchSomeRecoversSelectively(s, e => if test(e) then Some(recover(e)) else Nothing, eff, ctx, st, fuel);
  }

  /** `lambda e: succeed(f"Recovered: {e}")` for string errors. */
  function RecoveredMessage(e: Value): Effect
  {
    Succeed(Str("Recovered: " + (if e.Str? then e.s else "")))
  }

  /** The catch_all example: `fail("something went wrong")` recovered with a message built from the error. */
  lemma CatchAllExample(w: World, fuel: nat)
    ensures RunSync(CatchAll(RecoveredMessage)(Fail(Str("something went wrong"))), w, fuel + 1)
         == (Ok(Str("Recovered: something went wrong")), w)
  {
    CatchAllRecovers(Blocking, RecoveredMessage, Fail(Str("something went wrong")), Empty(), State(map[], w), fuel);
    assert "Recovered: " + "something went wrong" == "Recovered: something went wrong";
  }
}
