// The interpreter.  `Eval` is the reference semantics of both fiber runners:
// the blocking one (`_run_sync_fiber`) and the cooperative one
// (`_run_async_fiber`), which differ only on Async/TryAsync and on how
// ZipPar gathers its members.  The runners' one piece of mutable state, the
// per-run memo table, is threaded through `State` together with the world
// that user thunks act on.
//
// Python recursion is unbounded, and continuations can build effects of any
// size, so `Eval` takes fuel.  Fuel is spent only where the runner continues
// with an effect built at run time (a FlatMap, Tap or TapError continuation
// and the effect a Suspend builds); everything else is structural.  When
// fuel runs out the outcome is `OutOfFuel`, which says nothing about the
// program.

module Runtime {
  import opened Options
  import opened Eithers
  import opened Values
  import opened Exits
  import opened Contexts
  import opened Primitives

  /** Which fiber runner: `_run_sync_fiber` or `_run_async_fiber`. */
  datatype Strategy = Blocking | Cooperative

  type PyExit = Exit<Value, Value>

  /**
   * How a run ends: with an Exit, with an exception escaping the runner
   * (even through `run_sync_exit`), or out of fuel.
   */
  datatype Outcome<A> = Ok(value: A) | Raised(exn: PyException) | OutOfFuel

  /** The per-run memo table (layer id to built value) and the world. */
  datatype State = State(memo: map<int, Value>, world: World)

  datatype Step = Step(outcome: Outcome<PyExit>, state: State)

  /** What `_unwrap` raises for a failure: the error itself if it is an exception. */
  function Raisable(error: Value): (x: PyException)
    ensures error.Exn? ==> x == error.exn
    ensures !error.Exn? ==> x.cls == RuntimeError && x.payload == error
  {
    if error.Exn? then error.exn
    else PyException(RuntimeError, "effect failed: ", error, Nothing)
  }

  /** `_unwrap`: the success value, or the exception a failure raises. */
  function Unwrap(x: PyExit): (r: Call<Value>)
    ensures r.Returns? <==> x.ExitSuccess?
    ensures x.ExitSuccess? ==> r.value == x.value
    ensures x.ExitFailure? ==> r.exn == Raisable(x.error)
  {
    match x
    case ExitSuccess(v) => Returns(v)
    case ExitFailure(err) => Throws(Raisable(err))
  }

  /** The error the blocking runner raises for a node it cannot run. */
  function CannotRunSync(name: string): PyException
  {
    PyException(RuntimeError, "Cannot run " + name + " synchronously", NoneV, Nothing)
  }

  /** MapError's new error, with its cause set when both errors are exceptions. */
  function WithCause(transformed: Value, original: Value): (r: Value)
    ensures transformed.Exn? && original.Exn? ==>
      r == Exn(transformed.exn.(cause := Some(original.exn)))
    ensures !(transformed.Exn? && original.Exn?) ==> r == transformed
  {
    if transformed.Exn? && original.Exn? then Exn(transformed.exn.(cause := Some(original.exn)))
    else transformed
  }

  /**
   * Calling a thunk: its value succeeds; what it raises escapes the runner,
   * unless `catching` (TrySync/TryAsync) and it is an `Exception`, which
   * becomes the failure.
   */
  function CallThunk(thunk: Thunk, catching: bool, st: State): Step
  {
    var (call, world) := thunk(st.world);
    var after := st.(world := world);
    match call
    case Returns(v) => Step(Ok(ExitSuccess(v)), after)
    case Throws(x) =>
      if catching && IsException(x) then Step(Ok(ExitFailure(Exn(x))), after)
      else Step(Raised(x), after)
  }

  /** Tap's result once its body has run: the original value, unless the body failed. */
  function TapResult(original: Value, body: Outcome<PyExit>): Outcome<PyExit>
  {
    match body
    case Ok(ExitSuccess(_)) => Ok(ExitSuccess(original))
    case Ok(ExitFailure(err)) => Raised(Raisable(err))
    case Raised(x) => Raised(x)
    case OutOfFuel => OutOfFuel
  }

  function Eval(s: Strategy, e: Effect, ctx: Context, st: State, fuel: nat): Step
    decreases fuel, e, if e.ZipPar? then |e.effects| + 2 else 1
  {
    match e
    case Succeed(v) => Step(Ok(ExitSuccess(v)), st)
    case Fail(err) => Step(Ok(ExitFailure(err)), st)
    case Sync(thunk) => CallThunk(thunk, false, st)
    case Async(thunk) =>
      if s == Blocking then Step(Raised(CannotRunSync("Async")), st) else CallThunk(thunk, false, st)
    case TrySync(thunk) => CallThunk(thunk, true, st)
    case TryAsync(thunk) =>
      if s == Blocking then Step(Raised(CannotRunSync("TryAsync")), st) else CallThunk(thunk, true, st)
    case Suspend(factory) => EvalSuspend(s, factory, ctx, st, fuel)
    case Tap(inner, f) => EvalTap(s, inner, f, ctx, st, fuel)
    case TapError(inner, f) => EvalTapError(s, inner, f, ctx, st, fuel)
    case Map(inner, g) => EvalMap(s, inner, g, ctx, st, fuel)
    case FlatMap(inner, f) => EvalFlatMap(s, inner, f, ctx, st, fuel)
    case Ignore(inner) => EvalIgnore(s, inner, ctx, st, fuel)
    case MapError(inner, g) => EvalMapError(s, inner, g, ctx, st, fuel)
    case Absorb(inner) => EvalAbsorb(s, inner, ctx, st, fuel)
    case Service(tag) =>
      (match Get(ctx, tag)
       case Returns(v) => Step(Ok(ExitSuccess(v)), st)
       case Throws(x) => Step(Raised(x), st))
    case Provide(inner, newCtx) => Eval(s, inner, Merge(ctx, newCtx), st, fuel)
    case MemoizedEffect(inner, id) => EvalMemoized(s, inner, id, ctx, st, fuel)
    case Sleep(_) => Step(Ok(ExitSuccess(NoneV)), st)
    case ZipPar(es) => ZipFrom(s, es, 0, [], Nothing, ctx, st, fuel)
  }

  /** Suspend: call the factory, then run the effect it built. */
  function EvalSuspend(s: Strategy, factory: World -> (Call<Effect>, World), ctx: Context, st: State, fuel: nat): Step
    decreases fuel, Suspend(factory), 0
  {
    var (made, world) := factory(st.world);
    var after := st.(world := world);
    match made
    case Returns(next) => if fuel == 0 then Step(OutOfFuel, after) else Eval(s, next, ctx, after, fuel - 1)
    case Throws(x) => Step(Raised(x), after)
  }

  /** Tap: run the body on the success value and keep the value, unless the body failed. */
  function EvalTap(s: Strategy, inner: Effect, f: Value -> Effect, ctx: Context, st: State, fuel: nat): Step
    decreases fuel, Tap(inner, f), 0
  {
    var r := Eval(s, inner, ctx, st, fuel);
    match r.outcome
    case Ok(ExitSuccess(v)) =>
      if fuel == 0 then Step(OutOfFuel, r.state)
      else
        var body := Eval(s, f(v), ctx, r.state, fuel - 1);
        Step(TapResult(v, body.outcome), body.state)
    case _ => r
  }

  /** TapError: run the body on the error and keep the original failure. */
  function EvalTapError(s: Strategy, inner: Effect, f: Value -> Effect, ctx: Context, st: State, fuel: nat): Step
    decreases fuel, TapError(inner, f), 0
  {
    var r := Eval(s, inner, ctx, st, fuel);
    match r.outcome
    case Ok(ExitFailure(err)) =>
      if fuel == 0 then Step(OutOfFuel, r.state)
      else
        var body := Eval(s, f(err), ctx, r.state, fuel - 1);
        if body.outcome.OutOfFuel? then body else Step(Ok(ExitFailure(err)), body.state)
    case _ => r
  }

  function EvalMap(s: Strategy, inner: Effect, g: Value -> Value, ctx: Context, st: State, fuel: nat): Step
    decreases fuel, Map(inner, g), 0
  {
    var r := Eval(s, inner, ctx, st, fuel);
    match r.outcome
    case Ok(ExitSuccess(v)) => Step(Ok(ExitSuccess(g(v))), r.state)
    case _ => r
  }

  function EvalFlatMap(s: Strategy, inner: Effect, f: Value -> Effect, ctx: Context, st: State, fuel: nat): Step
    decreases fuel, FlatMap(inner, f), 0
  {
    var r := Eval(s, inner, ctx, st, fuel);
    match r.outcome
    case Ok(ExitSuccess(v)) =>
      if fuel == 0 then Step(OutOfFuel, r.state) else Eval(s, f(v), ctx, r.state, fuel - 1)
    case _ => r
  }

  function EvalIgnore(s: Strategy, inner: Effect, ctx: Context, st: State, fuel: nat): Step
    decreases fuel, Ignore(inner), 0
  {
    var r := Eval(s, inner, ctx, st, fuel);
    if r.outcome.Ok? then Step(Ok(ExitSuccess(NoneV)), r.state) else r
  }

  function EvalMapError(s: Strategy, inner: Effect, g: Value -> Value, ctx: Context, st: State, fuel: nat): Step
    decreases fuel, MapError(inner, g), 0
  {
    var r := Eval(s, inner, ctx, st, fuel);
    match r.outcome
    case Ok(ExitFailure(original)) => Step(Ok(ExitFailure(WithCause(g(original), original))), r.state)
    case _ => r
  }

  function EvalAbsorb(s: Strategy, inner: Effect, ctx: Context, st: State, fuel: nat): Step
    decreases fuel, Absorb(inner), 0
  {
    var r := Eval(s, inner, ctx, st, fuel);
    match r.outcome
    case Ok(ExitSuccess(v)) => Step(Ok(ExitSuccess(EitherV(Right(v)))), r.state)
    case Ok(ExitFailure(err)) => Step(Ok(ExitSuccess(EitherV(Left(err)))), r.state)
    case _ => r
  }

  /** MemoizedEffect: a built layer's value, or build it and store a success. */
  function EvalMemoized(s: Strategy, inner: Effect, id: int, ctx: Context, st: State, fuel: nat): Step
    decreases fuel, MemoizedEffect(inner, id), 0
  {
    if id in st.memo then Step(Ok(ExitSuccess(st.memo[id])), st)
    else
      var r := Eval(s, inner, ctx, st, fuel);
      match r.outcome
      case Ok(ExitSuccess(v)) => Step(r.outcome, r.state.(memo := r.state.memo[id := v]))
      case _ => r
  }

  /**
   * ZipPar's members from index i on, with the exits gathered so far and the
   * first exception raised so far.  The blocking runner stops at the first
   * failure or raise.  The cooperative runner (`asyncio.gather`) runs every
   * member, in listed order, even after one has raised; once all have run,
   * the first exception by position escapes, and otherwise the exits are
   * joined.
   */
  function ZipFrom(s: Strategy, es: seq<Effect>, i: nat, acc: seq<PyExit>, thrown: Option<PyException>,
                   ctx: Context, st: State, fuel: nat): Step
    requires i <= |es|
    decreases fuel, ZipPar(es), |es| - i
  {
    if i == |es| then
      (if thrown.Some? then Step(Raised(thrown.value), st) else Step(Ok(Join(acc)), st))
    else
      var r := Eval(s, es[i], ctx, st, fuel);
      match r.outcome
      case Ok(x) =>
        if s == Blocking && x.ExitFailure? then r
        else ZipFrom(s, es, i + 1, acc + [x], thrown, ctx, r.state, fuel)
      case Raised(x) =>
        if s == Blocking then r
        else ZipFrom(s, es, i + 1, acc, if thrown.Some? then thrown else Some(x), ctx, r.state, fuel)
      case OutOfFuel => r
  }

  /** The join scan over exits from index i on, with the values collected so far. */
  function JoinFrom(rs: seq<PyExit>, i: nat, values: seq<Value>): PyExit
    requires i <= |rs|
    decreases |rs| - i
  {
    if i == |rs| then ExitSuccess(Tuple(values))
    else
      match rs[i]
      case ExitSuccess(v) => JoinFrom(rs, i + 1, values + [v])
      case ExitFailure(err) => ExitFailure(err)
  }

  /** The cooperative ZipPar join: the tuple of values, or the first failure by position. */
  function Join(rs: seq<PyExit>): PyExit
  {
    JoinFrom(rs, 0, [])
  }

  /** Settling an outcome the way `_unwrap` does at the entry points. */
  function Settle(o: Outcome<PyExit>): (r: Outcome<Value>)
    ensures o.Ok? && o.value.ExitSuccess? ==> r == Ok(o.value.value)
    ensures o.Ok? && o.value.ExitFailure? ==> r == Raised(Raisable(o.value.error))
    ensures o.Raised? ==> r == Raised(o.exn)
    ensures o.OutOfFuel? ==> r == OutOfFuel
  {
    match o
    case Ok(x) =>
      (match Unwrap(x)
       case Returns(v) => Ok(v)
       case Throws(exn) => Raised(exn))
    case Raised(x) => Raised(x)
    case OutOfFuel => OutOfFuel
  }

  /** Every entry point: an empty context and an empty memo table. */
  function RunExit(s: Strategy, e: Effect, world: World, fuel: nat): (Outcome<PyExit>, World)
  {
    var r := Eval(s, e, Empty(), State(map[], world), fuel);
    (r.outcome, r.state.world)
  }

  function RunSyncExit(e: Effect, world: World, fuel: nat): (Outcome<PyExit>, World)
  {
    RunExit(Blocking, e, world, fuel)
  }

  function RunAsyncExit(e: Effect, world: World, fuel: nat): (Outcome<PyExit>, World)
  {
    RunExit(Cooperative, e, world, fuel)
  }

  function RunSync(e: Effect, world: World, fuel: nat): (Outcome<Value>, World)
  {
    var (o, after) := RunSyncExit(e, world, fuel);
    (Settle(o), after)
  }

  function RunAsync(e: Effect, world: World, fuel: nat): (Outcome<Value>, World)
  {
    var (o, after) := RunAsyncExit(e, world, fuel);
    (Settle(o), after)
  }
}
