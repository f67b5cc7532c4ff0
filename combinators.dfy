// The curried combinators `map`, `tap` and `tap_error`: each takes its
// function and returns a builder that wraps an effect in one node.  What is
// proved is what the wrapped effect does when an entry point runs it.

module Combinators {
  import opened Values
  import opened Exits
  import opened Contexts
  import opened Primitives
  import opened Runtime
  import opened RuntimeLaws

  /** `map(f)`. */
  function MapWith(f: Value -> Value): Effect -> Effect
  {
    eff => Map(eff, f)
  }

  /** `tap(f)`. */
  function TapWith(f: Value -> Effect): Effect -> Effect
  {
    eff => Tap(eff, f)
  }

  /** `tap_error(f)`. */
  function TapErrorWith(f: Value -> Effect): Effect -> Effect
  {
    eff => TapError(eff, f)
  }

  /**
   * A run of `map(f)(eff)` is the run of eff with f applied to its success
   * value; a failure (or an escaping exception) is left exactly as it was.
   */
  lemma MapWithOnRun(s: Strategy, f: Value -> Value, eff: Effect, w: World, fuel: nat)
    ensures var r := RunExit(s, eff, w, fuel);
      var m := RunExit(s, MapWith(f)(eff), w, fuel);
      (r.0.Ok? && r.0.value.ExitSuccess? ==> m.0 == Ok(ExitSuccess(f(r.0.value.value))) && m.1 == r.1) &&
      (!(r.0.Ok? && r.0.value.ExitSuccess?) ==> m == r)
  {
    MapLaw(s, eff, f, Empty(), State(map[], w), fuel);
  }

  /**
   * `run_sync(tap(f)(eff))` returns eff's value, not the body's result, once
   * the body has succeeded; a failing body is raised instead.
   */
  lemma TapWithKeepsValue(f: Value -> Effect, eff: Effect, w: World, fuel: nat)
    ensures var st := State(map[], w);
      var r := Eval(Blocking, eff, Empty(), st, fuel + 1);
      r.outcome.Ok? && r.outcome.value.ExitSuccess? ==>
        var v := r.outcome.value.value;
        var body := Eval(Blocking, f(v), Empty(), r.state, fuel);
        var t := RunSync(TapWith(f)(eff), w, fuel + 1);
        t.1 == body.state.world &&
        (body.outcome.Ok? && body.outcome.value.ExitSuccess? ==> t.0 == Ok(v)) &&
        (body.outcome.Ok? && body.outcome.value.ExitFailure? ==> t.0 == Raised(Raisable(body.outcome.value.error)))
  {
    TapLaw(Blocking, eff, f, f, Empty(), State(map[], w), fuel + 1);
  }

  /** `tap_error(f)` is not run on success: the run is exactly eff's run. */
  lemma TapErrorSkippedOnSuccess(s: Strategy, f: Value -> Effect, eff: Effect, w: World, fuel: nat)
    requires var r := RunExit(s, eff, w, fuel); r.0.Ok? && r.0.value.ExitSuccess?
    ensures RunExit(s, TapErrorWith(f)(eff), w, fuel) == RunExit(s, eff, w, fuel)
  {
    TapErrorLaw(s, eff, f, f, Empty(), State(map[], w), fuel);
  }

  /**
   * `run_sync(tap_error(f)(eff))` on a failure raises the original error
   * even when f's effect fails or raises; only f's effects on the world
   * remain.
   */
  lemma TapErrorResurfacesOriginal(f: Value -> Effect, eff: Effect, w: World, fuel: nat)
    ensures var st := State(map[], w);
      var r := Eval(Blocking, eff, Empty(), st, fuel + 1);
      r.outcome.Ok? && r.outcome.value.ExitFailure? ==>
        var err := r.outcome.value.error;
        var body := Eval(Blocking, f(err), Empty(), r.state, fuel);
        !body.outcome.OutOfFuel? ==>
          RunSync(TapErrorWith(f)(eff), w, fuel + 1) == (Raised(Raisable(err)), body.state.world)
  {
    TapErrorLaw(Blocking, eff, f, f, Empty(), State(map[], w), fuel + 1);
  }

  /**
   * Chained taps run in pipeline order: the inner tap's body runs first,
   * the outer one's on the state it left, and the value is eff's.
   */
  lemma ChainedTapsInOrder(s: Strategy, f1: Value -> Effect, f2: Value -> Effect, eff: Effect,
                           ctx: Context, st: State, fuel: nat)
    ensures var r := Eval(s, eff, ctx, st, fuel + 1);
      r.outcome.Ok? && r.outcome.value.ExitSuccess? ==>
        var v := r.outcome.value.value;
        var first := Eval(s, f1(v), ctx, r.state, fuel);
        var second := Eval(s, f2(v), ctx, first.state, fuel);
        first.outcome.Ok? && first.outcome.value.ExitSuccess? &&
        second.outcome.Ok? && second.outcome.value.ExitSuccess? ==>
          Eval(s, TapWith(f2)(TapWith(f1)(eff)), ctx, st, fuel + 1) == Step(Ok(ExitSuccess(v)), second.state)
  {
    TapLaw(s, eff, f1, f1, ctx, st, fuel + 1);
    TapLaw(s, Tap(eff, f1), f2, f2, ctx, st, fuel + 1);
  }

  /** The list cell the tap example appends to. */
  const Log := "executed"

  function Logged(w: World): seq<Value>
  {
    if Log in w && w[Log].List? then w[Log].elems else []
  }

  /** `lambda x: sync(lambda: executed.append(entry))`. */
  function AppendEntry(entry: string): Value -> Effect
  {
    x => Sync(w => (Returns(NoneV), w[Log := List(Logged(w) + [Str(entry)])]))
  }

  /** The tap example: two chained taps log "First" then "Second" and keep the value. */
  lemma TwoTapsLogInOrder(s: Strategy, v: Value, w: World, fuel: nat)
    ensures var t := RunExit(s, TapWith(AppendEntry("Second"))(TapWith(AppendEntry("First"))(Succeed(v))), w, fuel + 1);
      t.0 == Ok(ExitSuccess(v)) && Logged(t.1) == Logged(w) + [Str("First"), Str("Second")]
  {
    var st := State(map[], w);
    ChainedTapsInOrder(s, AppendEntry("First"), AppendEntry("Second"), Succeed(v), Empty(), st, fuel);
    var first := Eval(s, AppendEntry("First")(v), Empty(), st, fuel);
    assert first == CallThunk(AppendEntry("First")(v).thunk, false, st);
    var second := Eval(s, AppendEntry("Second")(v), Empty(), first.state, fuel);
    assert second == CallThunk(AppendEntry("Second")(v).thunk, false, first.state);
  }
}
