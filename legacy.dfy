// The earlier, standalone revision of the interpreter in effect.py: its own
// nine-node effect type and its own `run_sync` and `run_sync_exit`.  There
// is no context, no memo table and no Map/FlatMap here; `run_sync` raises a
// failure at once, while `run_sync_exit` keeps it as an exit value.

module Legacy {
  import opened Options
  import opened Values
  import opened Exits
  import Primitives
  import opened Runtime

  /** The nine legacy nodes. */
  datatype LegacyEffect =
    | Succeed(value: Value)
    | Fail(error: Value)
    | Sync(thunk: Primitives.Thunk)
    | Async(thunk: Primitives.Thunk)
    | TrySync(thunk: Primitives.Thunk)
    | TryAsync(thunk: Primitives.Thunk)
    | Suspend(factory: World -> (Call<LegacyEffect>, World))
    | Tap(effect: LegacyEffect, f: Value -> LegacyEffect)
    | TapError(effect: LegacyEffect, f: Value -> LegacyEffect)

  /** Calling a thunk whose exceptions propagate. */
  function Called(c: (Call<Value>, World)): (Outcome<Value>, World)
  {
    match c.0
    case Returns(v) => (Ok(v), c.1)
    case Throws(x) => (Raised(x), c.1)
  }

  /**
   * `run_sync`: the value, or the exception the run raises.  A Fail raises
   * its error (wrapped in RuntimeError unless it is an exception); Tap runs
   * its body with `run_sync` and keeps the value; TapError catches what the
   * inner run raised, runs its body on that exception with every error of
   * the body suppressed, and raises the original again.  Fuel bounds the
   * Tap/TapError bodies and the effects Suspend builds.
   */
  function RunSync(e: LegacyEffect, w: World, fuel: nat): (Outcome<Value>, World)
    decreases fuel, e
  {
    match e
    case Succeed(v) => (Ok(v), w)
    case Sync(thunk) => Called(thunk(w))
    case Fail(err) => (Raised(Raisable(err)), w)
    case Tap(inner, f) =>
      var (r, w1) := RunSync(inner, w, fuel);
      (match r
       case Ok(v) =>
         if fuel == 0 then (OutOfFuel, w1)
         else
           var (b, w2) := RunSync(f(v), w1, fuel - 1);
           (if b.Ok? then Ok(v) else b, w2)
       case _ => (r, w1))
    case TapError(inner, f) =>
      var (r, w1) := RunSync(inner, w, fuel);
      (match r
       case Raised(x) =>
         if fuel == 0 then (OutOfFuel, w1)
         else
           var (b, w2) := RunSync(f(Exn(x)), w1, fuel - 1);
           (if b.OutOfFuel? then OutOfFuel else Raised(x), w2)
       case _ => (r, w1))
    case Suspend(factory) =>
      var (made, w1) := factory(w);
      (match made
       case Returns(next) => if fuel == 0 then (OutOfFuel, w1) else RunSync(next, w1, fuel - 1)
       case Throws(x) => (Raised(x), w1))
    case TrySync(thunk) => Called(thunk(w))
    case Async(_) => (Raised(CannotRunSync("Async")), w)
    case TryAsync(_) => (Raised(CannotRunSync("TryAsync")), w)
  }

  /**
   * `run_sync_exit`: a Success or Failure exit, or the exception that
   * escapes.  Fail is a Failure exit; TrySync turns an `Exception` into a
   * Failure exit; Tap's body still runs through `run_sync`, so a failing
   * body raises; TapError runs its body on the error value, suppresses what
   * the body does and returns the original Failure.
   */
  function RunSyncExit(e: LegacyEffect, w: World, fuel: nat): (Outcome<PyExit>, World)
    decreases fuel, e
  {
    match e
    case Succeed(v) => (Ok(ExitSuccess(v)), w)
    case Sync(thunk) =>
      var (c, w1) := thunk(w);
      (match c case Returns(v) => Ok(ExitSuccess(v)) case Throws(x) => Raised(x), w1)
    case Fail(err) => (Ok(ExitFailure(err)), w)
    case Tap(inner, f) =>
      var (r, w1) := RunSyncExit(inner, w, fuel);
      (match r
       case Ok(ExitSuccess(v)) =>
         if fuel == 0 then (OutOfFuel, w1)
         else
           var (b, w2) := RunSync(f(v), w1, fuel - 1);
           (match b case Ok(_) => Ok(ExitSuccess(v)) case Raised(x) => Raised(x) case OutOfFuel => OutOfFuel, w2)
       case _ => (r, w1))
    case TapError(inner, f) =>
      var (r, w1) := RunSyncExit(inner, w, fuel);
      (match r
       case Ok(ExitFailure(err)) =>
         if fuel == 0 then (OutOfFuel, w1)
         else
           var (b, w2) := RunSync(f(err), w1, fuel - 1);
           (if b.OutOfFuel? then OutOfFuel else Ok(ExitFailure(err)), w2)
       case _ => (r, w1))
    case Suspend(factory) =>
      var (made, w1) := factory(w);
      (match made
       case Returns(next) => if fuel == 0 then (OutOfFuel, w1) else RunSyncExit(next, w1, fuel - 1)
       case Throws(x) => (Raised(x), w1))
    case TrySync(thunk) =>
      var (c, w1) := thunk(w);
      (match c
       case Returns(v) => Ok(ExitSuccess(v))
       case Throws(x) => if IsException(x) then Ok(ExitFailure(Exn(x))) else Raised(x), w1)
    case Async(_) => (Raised(CannotRunSync("Async")), w)
    case TryAsync(_) => (Raised(CannotRunSync("TryAsync")), w)
  }

  /**
   * A Fail is raised only by `run_sync`: an exception error is raised as
   * itself, any other error inside a RuntimeError that carries it;
   * `run_sync_exit` returns it as a Failure exit.  Nothing else changes.
   */
  lemma FailRaisesOnlyInRunSync(err: Value, w: World, fuel: nat)
    ensures var (o, after) := RunSync(Fail(err), w, fuel);
      after == w && o.Raised? &&
      (err.Exn? ==> o.exn == err.exn) &&
      (!err.Exn? ==> o.exn.cls == RuntimeError && o.exn.payload == err)
    ensures RunSyncExit(Fail(err), w, fuel) == (Ok(ExitFailure(err)), w)
  {
  }

  /**
   * TrySync: `run_sync_exit` turns an `Exception` the thunk raises into a
   * Failure exit carrying it, while `run_sync` lets it propagate; an
   * exception outside `Exception` escapes both.
   */
  lemma TrySyncCaughtOnlyByExit(thunk: Primitives.Thunk, w: World, fuel: nat)
    ensures var (c, after) := thunk(w);
      c.Throws? ==>
        RunSync(TrySync(thunk), w, fuel) == (Raised(c.exn), after) &&
        (IsException(c.exn) ==> RunSyncExit(TrySync(thunk), w, fuel) == (Ok(ExitFailure(Exn(c.exn))), after)) &&
        (!IsException(c.exn) ==> RunSyncExit(TrySync(thunk), w, fuel) == (Raised(c.exn), after))
    ensures var (c, after) := thunk(w);
      c.Returns? ==>
        RunSync(TrySync(thunk), w, fuel) == (Ok(c.value), after) &&
        RunSyncExit(TrySync(thunk), w, fuel) == (Ok(ExitSuccess(c.value)), after)
  {
  }

  /**
   * Tap under `run_sync_exit` returns the original value once its body has
   * run through `run_sync`; a failing body raises (a Fail body raises its
   * error as `run_sync` does), and a Failure of the tapped effect skips it.
   */
  lemma TapExitKeepsValue(inner: LegacyEffect, f: Value -> LegacyEffect, w: World, fuel: nat)
    ensures var (r, w1) := RunSyncExit(inner, w, fuel + 1);
      var t := RunSyncExit(Tap(inner, f), w, fuel + 1);
      (r.Ok? && r.value.ExitSuccess? ==>
        var (b, w2) := RunSync(f(r.value.value), w1, fuel);
        t.1 == w2 &&
        (b.Ok? ==> t.0 == Ok(ExitSuccess(r.value.value))) &&
        (b.Raised? ==> t.0 == Raised(b.exn))) &&
      (!(r.Ok? && r.value.ExitSuccess?) ==> t == (r, w1))
  {
  }

  /** Tap under `run_sync` returns the original value, not the body's; a raising body raises. */
  lemma TapKeepsValue(inner: LegacyEffect, f: Value -> LegacyEffect, w: World, fuel: nat)
    ensures var (r, w1) := RunSync(inner, w, fuel + 1);
      var t := RunSync(Tap(inner, f), w, fuel + 1);
      (r.Ok? ==>
        var (b, w2) := RunSync(f(r.value), w1, fuel);
        t.1 == w2 && (b.Ok? ==> t.0 == Ok(r.value)) && (b.Raised? ==> t.0 == b)) &&
      (!r.Ok? ==> t == (r, w1))
  {
  }

  /**
   * TapError under `run_sync_exit` returns the original Failure whatever
   * its body does (a raise or a failure of the body is suppressed; only its
   * changes to the world remain), and leaves a success alone.
   */
  lemma TapErrorExitKeepsFailure(inner: LegacyEffect, f: Value -> LegacyEffect, w: World, fuel: nat)
    ensures var (r, w1) := RunSyncExit(inner, w, fuel + 1);
      var t := RunSyncExit(TapError(inner, f), w, fuel + 1);
      (r.Ok? && r.value.ExitFailure? ==>
        var (b, w2) := RunSync(f(r.value.error), w1, fuel);
        !b.OutOfFuel? ==> t == (r, w2)) &&
      (!(r.Ok? && r.value.ExitFailure?) ==> t == (r, w1))
  {
    var (r, w1) := RunSyncExit(inner, w, fuel + 1);
    if r.Ok? && r.value.ExitFailure? {
      var (b, w2) := RunSync(f(r.value.error), w1, fuel);
      assert RunSyncExit(TapError(inner, f), w, fuel + 1)
          == (if b.OutOfFuel? then OutOfFuel else Ok(ExitFailure(r.value.error)), w2);
    }
  }

  /**
   * TapError under `run_sync` re-raises what the inner run raised whatever
   * its body does; the body sees the raised exception itself (for a Fail of
   * a non-exception that is the RuntimeError wrapping the error).
   */
  lemma TapErrorReraises(inner: LegacyEffect, f: Value -> LegacyEffect, w: World, fuel: nat)
    ensures var (r, w1) := RunSync(inner, w, fuel + 1);
      var t := RunSync(TapError(inner, f), w, fuel + 1);
      (r.Raised? ==>
        var (b, w2) := RunSync(f(Exn(r.exn)), w1, fuel);
        !b.OutOfFuel? ==> t == (r, w2)) &&
      (!r.Raised? ==> t == (r, w1))
  {
  }

  /**
   * Suspend calls its factory on each evaluation, against the world as it
   * is then, and runs what it built; a raising factory is raised by both
   * runners.
   */
  lemma SuspendBuildsOnEachRun(factory: World -> (Call<LegacyEffect>, World), w: World, fuel: nat)
    ensures var (made, w1) := factory(w);
      (made.Returns? ==>
        RunSync(Suspend(factory), w, fuel + 1) == RunSync(made.value, w1, fuel) &&
        RunSyncExit(Suspend(factory), w, fuel + 1) == RunSyncExit(made.value, w1, fuel)) &&
      (made.Throws? ==>
        RunSync(Suspend(factory), w, fuel) == (Raised(made.exn), w1) &&
        RunSyncExit(Suspend(factory), w, fuel) == (Raised(made.exn), w1))
  {
  }

  /** Neither synchronous runner runs Async or TryAsync: both raise "Cannot run ... synchronously". */
  lemma AsyncCannotRunSync(thunk: Primitives.Thunk, w: World, fuel: nat)
    ensures RunSync(Async(thunk), w, fuel) == (Raised(CannotRunSync("Async")), w)
    ensures RunSyncExit(Async(thunk), w, fuel) == (Raised(CannotRunSync("Async")), w)
    ensures RunSync(TryAsync(thunk), w, fuel) == (Raised(CannotRunSync("TryAsync")), w)
    ensures RunSyncExit(TryAsync(thunk), w, fuel) == (Raised(CannotRunSync("TryAsync")), w)
    ensures CannotRunSync("Async").cls == RuntimeError
  {
  }

  /**
   * On the nodes without a body (Succeed, Fail, Sync, TrySync, Async,
   * TryAsync) `run_sync` is `run_sync_exit` with a Failure raised as
   * `_unwrap` would raise it.
   */
  lemma LeafRunnersAgree(e: LegacyEffect, w: World, fuel: nat)
    requires e.Succeed? || e.Fail? || e.Sync? || e.TrySync? || e.Async? || e.TryAsync?
    ensures var (o, after) := RunSyncExit(e, w, fuel);
      RunSync(e, w, fuel) == (Settle(o), after)
  {
  }

  /** The cell a recording body writes the value it was given to. */
  const Seen := "seen"

  /** `lambda e: sync(lambda: seen.append(e))`. */
  function RecordArgument(e: Value): LegacyEffect
  {
    Sync(w => (Returns(NoneV), w[Seen := e]))
  }

  /**
   * The two runners hand TapError's body different values for the same
   * failure: `run_sync_exit` gives it the error itself, `run_sync` the
   * RuntimeError it raised for that error.
   */
  lemma TapErrorBodySeesDifferentValues(w: World, fuel: nat)
    ensures var e := TapError(Fail(Str("oops")), RecordArgument);
      var (o1, w1) := RunSync(e, w, fuel + 1);
      var (o2, w2) := RunSyncExit(e, w, fuel + 1);
      Seen in w1 && Seen in w2 && w2[Seen] == Str("oops") && w1[Seen] == Exn(Raisable(Str("oops"))) && w1[Seen] != w2[Seen] &&
      o1 == Raised(Raisable(Str("oops"))) && o2 == Ok(ExitFailure(Str("oops")))
  {
    var x := Raisable(Str("oops"));
    var body1 := RecordArgument(Exn(x));
    assert RunSync(body1, w, fuel) == (Ok(NoneV), w[Seen := Exn(x)]);
    var body2 := RecordArgument(Str("oops"));
    assert RunSync(body2, w, fuel) == (Ok(NoneV), w[Seen := Str("oops")]);
    assert RunSync(TapError(Fail(Str("oops")), RecordArgument), w, fuel + 1) == (Raised(x), w[Seen := Exn(x)]);
    assert RunSyncExit(TapError(Fail(Str("oops")), RecordArgument), w, fuel + 1)
        == (Ok(ExitFailure(Str("oops"))), w[Seen := Str("oops")]);
  }
}
