// What the interpreter guarantees, node by node and across whole runs.

module RuntimeLaws {
  import opened Options
  import opened Eithers
  import opened Values
  import opened Exits
  import opened Contexts
  import opened Primitives
  import opened Runtime

  /** Every entry of the earlier memo table is still present, unchanged. */
  predicate Extends(later: map<int, Value>, earlier: map<int, Value>)
  {
    forall id | id in earlier :: id in later && later[id] == earlier[id]
  }

  lemma ExtendsTransitive(m1: map<int, Value>, m2: map<int, Value>, m3: map<int, Value>)
    requires Extends(m2, m1) && Extends(m3, m2)
    ensures Extends(m3, m1)
  {
  }

  /**
   * The memo table only grows: no evaluation removes or changes a built
   * layer's value.  This is what makes a layer built once per run.
   */
  lemma {:induction false} MemoMonotone(s: Strategy, e: Effect, ctx: Context, st: State, fuel: nat)
    ensures Extends(Eval(s, e, ctx, st, fuel).state.memo, st.memo)
    decreases fuel, e, if e.ZipPar? then |e.effects| + 2 else 1
  {
    match e
    case Suspend(factory) => SuspendMemoMonotone(s, factory, ctx, st, fuel);
    case Tap(inner, f) => TapMemoMonotone(s, inner, f, ctx, st, fuel);
    case TapError(inner, f) => TapErrorMemoMonotone(s, inner, f, ctx, st, fuel);
    case FlatMap(inner, f) => FlatMapMemoMonotone(s, inner, f, ctx, st, fuel);
    case Map(inner, g) => MapMemoMonotone(s, inner, g, ctx, st, fuel);
    case Ignore(inner) => IgnoreMemoMonotone(s, inner, ctx, st, fuel);
    case MapError(inner, g) => MapErrorMemoMonotone(s, inner, g, ctx, st, fuel);
    case Absorb(inner) => AbsorbMemoMonotone(s, inner, ctx, st, fuel);
    case Provide(inner, newCtx) => ProvideMemoMonotone(s, inner, newCtx, ctx, st, fuel);
    case MemoizedEffect(inner, id) => MemoizedMemoMonotone(s, inner, id, ctx, st, fuel);
    case ZipPar(es) => ZipMemoMonotone(s, es, 0, [], Nothing, ctx, st, fuel);
    case _ =>
  }

  lemma {:induction false} SuspendMemoMonotone(s: Strategy, factory: World -> (Call<Effect>, World), ctx: Context, st: State, fuel: nat)
    ensures Extends(Eval(s, Suspend(factory), ctx, st, fuel).state.memo, st.memo)
    decreases fuel, Suspend(factory), 0
  {
    assert Eval(s, Suspend(factory), ctx, st, fuel) == EvalSuspend(s, factory, ctx, st, fuel);
    var (made, world) := factory(st.world);
    if made.Returns? && fuel > 0 {
      MemoMonotone(s, made.value, ctx, st.(world := world), fuel - 1);
    }
  }

  lemma {:induction false} TapMemoMonotone(s: Strategy, inner: Effect, f: Value -> Effect, ctx: Context, st: State, fuel: nat)
    ensures Extends(Eval(s, Tap(inner, f), ctx, st, fuel).state.memo, st.memo)
    decreases fuel, Tap(inner, f), 0
  {
    assert Eval(s, Tap(inner, f), ctx, st, fuel) == EvalTap(s, inner, f, ctx, st, fuel);
    var r := Eval(s, inner, ctx, st, fuel);
    MemoMonotone(s, inner, ctx, st, fuel);
    if r.outcome.Ok? && r.outcome.value.ExitSuccess? && fuel > 0 {
      MemoMonotone(s, f(r.outcome.value.value), ctx, r.state, fuel - 1);
    }
  }

  lemma {:induction false} TapErrorMemoMonotone(s: Strategy, inner: Effect, f: Value -> Effect, ctx: Context, st: State, fuel: nat)
    ensures Extends(Eval(s, TapError(inner, f), ctx, st, fuel).state.memo, st.memo)
    decreases fuel, TapError(inner, f), 0
  {
    assert Eval(s, TapError(inner, f), ctx, st, fuel) == EvalTapError(s, inner, f, ctx, st, fuel);
    var r := Eval(s, inner, ctx, st, fuel);
    MemoMonotone(s, inner, ctx, st, fuel);
    if r.outcome.Ok? && r.outcome.value.ExitFailure? && fuel > 0 {
      MemoMonotone(s, f(r.outcome.value.error), ctx, r.state, fuel - 1);
    }
  }

  lemma {:induction false} FlatMapMemoMonotone(s: Strategy, inner: Effect, f: Value -> Effect, ctx: Context, st: State, fuel: nat)
    ensures Extends(Eval(s, FlatMap(inner, f), ctx, st, fuel).state.memo, st.memo)
    decreases fuel, FlatMap(inner, f), 0
  {
    assert Eval(s, FlatMap(inner, f), ctx, st, fuel) == EvalFlatMap(s, inner, f, ctx, st, fuel);
    var r := Eval(s, inner, ctx, st, fuel);
    MemoMonotone(s, inner, ctx, st, fuel);
    if r.outcome.Ok? && r.outcome.value.ExitSuccess? && fuel > 0 {
      MemoMonotone(s, f(r.outcome.value.value), ctx, r.state, fuel - 1);
    }
  }

  lemma {:induction false} MapMemoMonotone(s: Strategy, inner: Effect, g: Value -> Value, ctx: Context, st: State, fuel: nat)
    ensures Extends(Eval(s, Map(inner, g), ctx, st, fuel).state.memo, st.memo)
    decreases fuel, Map(inner, g), 0
  {
    assert Eval(s, Map(inner, g), ctx, st, fuel) == EvalMap(s, inner, g, ctx, st, fuel);
    MemoMonotone(s, inner, ctx, st, fuel);
  }

  lemma {:induction false} IgnoreMemoMonotone(s: Strategy, inner: Effect, ctx: Context, st: State, fuel: nat)
    ensures Extends(Eval(s, Ignore(inner), ctx, st, fuel).state.memo, st.memo)
    decreases fuel, Ignore(inner), 0
  {
    assert Eval(s, Ignore(inner), ctx, st, fuel) == EvalIgnore(s, inner, ctx, st, fuel);
    MemoMonotone(s, inner, ctx, st, fuel);
  }

  lemma {:induction false} MapErrorMemoMonotone(s: Strategy, inner: Effect, g: Value -> Value, ctx: Context, st: State, fuel: nat)
    ensures Extends(Eval(s, MapError(inner, g), ctx, st, fuel).state.memo, st.memo)
    decreases fuel, MapError(inner, g), 0
  {
    assert Eval(s, MapError(inner, g), ctx, st, fuel) == EvalMapError(s, inner, g, ctx, st, fuel);
    MemoMonotone(s, inner, ctx, st, fuel);
  }

  lemma {:induction false} AbsorbMemoMonotone(s: Strategy, inner: Effect, ctx: Context, st: State, fuel: nat)
    ensures Extends(Eval(s, Absorb(inner), ctx, st, fuel).state.memo, st.memo)
    decreases fuel, Absorb(inner), 0
  {
    assert Eval(s, Absorb(inner), ctx, st, fuel) == EvalAbsorb(s, inner, ctx, st, fuel);
    MemoMonotone(s, inner, ctx, st, fuel);
  }

  lemma {:induction false} ProvideMemoMonotone(s: Strategy, inner: Effect, newCtx: Context, ctx: Context, st: State, fuel: nat)
    ensures Extends(Eval(s, Provide(inner, newCtx), ctx, st, fuel).state.memo, st.memo)
    decreases fuel, Provide(inner, newCtx), 0
  {
    assert Eval(s, Provide(inner, newCtx), ctx, st, fuel) == Eval(s, inner, Merge(ctx, newCtx), st, fuel);
    MemoMonotone(s, inner, Merge(ctx, newCtx), st, fuel);
  }

  lemma {:induction false} MemoizedMemoMonotone(s: Strategy, inner: Effect, id: int, ctx: Context, st: State, fuel: nat)
    ensures Extends(Eval(s, MemoizedEffect(inner, id), ctx, st, fuel).state.memo, st.memo)
    decreases fuel, MemoizedEffect(inner, id), 0
  {
    assert Eval(s, MemoizedEffect(inner, id), ctx, st, fuel) == EvalMemoized(s, inner, id, ctx, st, fuel);
    if id !in st.memo {
      var r := Eval(s, inner, ctx, st, fuel);
      MemoMonotone(s, inner, ctx, st, fuel);
      if r.outcome.Ok? && r.outcome.value.ExitSuccess? {
        assert Extends(r.state.memo[id := r.outcome.value.value], st.memo);
      }
    }
  }

  lemma {:induction false} ZipMemoMonotone(s: Strategy, es: seq<Effect>, i: nat, acc: seq<PyExit>, thrown: Option<PyException>,
                                           ctx: Context, st: State, fuel: nat)
    requires i <= |es|
    ensures Extends(ZipFrom(s, es, i, acc, thrown, ctx, st, fuel).state.memo, st.memo)
    decreases fuel, ZipPar(es), |es| - i + 1
  {
    if i < |es| {
      var r := Eval(s, es[i], ctx, st, fuel);
      MemoMonotone(s, es[i], ctx, st, fuel);
      if r.outcome.Ok? && !(s == Blocking && r.outcome.value.ExitFailure?) {
        ZipMemoMonotone(s, es, i + 1, acc + [r.outcome.value], thrown, ctx, r.state, fuel);
      } else if r.outcome.Raised? && s == Cooperative {
        ZipMemoMonotone(s, es, i + 1, acc, if thrown.Some? then thrown else Some(r.outcome.exn), ctx, r.state, fuel);
      }
    }
  }

  /**
   * Fuel only bounds the run: an evaluation that finishes with some fuel
   * finishes identically with any more fuel.
   */
  lemma {:induction false} FuelMono(s: Strategy, e: Effect, ctx: Context, st: State, fuel: nat, more: nat)
    requires fuel <= more
    requires !Eval(s, e, ctx, st, fuel).outcome.OutOfFuel?
    ensures Eval(s, e, ctx, st, more) == Eval(s, e, ctx, st, fuel)
    decreases fuel, e, if e.ZipPar? then |e.effects| + 2 else 1
  {
    match e
    case Suspend(factory) => SuspendFuelMono(s, factory, ctx, st, fuel, more);
    case Tap(inner, f) => TapFuelMono(s, inner, f, ctx, st, fuel, more);
    case TapError(inner, f) => TapErrorFuelMono(s, inner, f, ctx, st, fuel, more);
    case FlatMap(inner, f) => FlatMapFuelMono(s, inner, f, ctx, st, fuel, more);
    case Map(inner, g) => MapFuelMono(s, inner, g, ctx, st, fuel, more);
    case Ignore(inner) => IgnoreFuelMono(s, inner, ctx, st, fuel, more);
    case MapError(inner, g) => MapErrorFuelMono(s, inner, g, ctx, st, fuel, more);
    case Absorb(inner) => AbsorbFuelMono(s, inner, ctx, st, fuel, more);
    case Provide(inner, newCtx) => ProvideFuelMono(s, inner, newCtx, ctx, st, fuel, more);
    case MemoizedEffect(inner, id) => MemoizedFuelMono(s, inner, id, ctx, st, fuel, more);
    case ZipPar(es) => ZipFuelMono(s, es, 0, [], Nothing, ctx, st, fuel, more);
    case _ =>
  }

  lemma {:induction false} SuspendFuelMono(s: Strategy, factory: World -> (Call<Effect>, World), ctx: Context, st: State, fuel: nat, more: nat)
    requires fuel <= more
    requires !Eval(s, Suspend(factory), ctx, st, fuel).outcome.OutOfFuel?
    ensures Eval(s, Suspend(factory), ctx, st, more) == Eval(s, Suspend(factory), ctx, st, fuel)
    decreases fuel, Suspend(factory), 0
  {
    assert Eval(s, Suspend(factory), ctx, st, fuel) == EvalSuspend(s, factory, ctx, st, fuel);
    assert Eval(s, Suspend(factory), ctx, st, more) == EvalSuspend(s, factory, ctx, st, more);
    var (made, world) := factory(st.world);
    if made.Returns? {
      FuelMono(s, made.value, ctx, st.(world := world), fuel - 1, more - 1);
    }
  }

  lemma {:induction false} TapFuelMono(s: Strategy, inner: Effect, f: Value -> Effect, ctx: Context, st: State, fuel: nat, more: nat)
    requires fuel <= more
    requires !Eval(s, Tap(inner, f), ctx, st, fuel).outcome.OutOfFuel?
    ensures Eval(s, Tap(inner, f), ctx, st, more) == Eval(s, Tap(inner, f), ctx, st, fuel)
    decreases fuel, Tap(inner, f), 0
  {
    assert Eval(s, Tap(inner, f), ctx, st, fuel) == EvalTap(s, inner, f, ctx, st, fuel);
    assert Eval(s, Tap(inner, f), ctx, st, more) == EvalTap(s, inner, f, ctx, st, more);
    var r := Eval(s, inner, ctx, st, fuel);
    FuelMono(s, inner, ctx, st, fuel, more);
    if r.outcome.Ok? && r.outcome.value.ExitSuccess? {
      FuelMono(s, f(r.outcome.value.value), ctx, r.state, fuel - 1, more - 1);
    }
  }

  lemma {:induction false} TapErrorFuelMono(s: Strategy, inner: Effect, f: Value -> Effect, ctx: Context, st: State, fuel: nat, more: nat)
    requires fuel <= more
    requires !Eval(s, TapError(inner, f), ctx, st, fuel).outcome.OutOfFuel?
    ensures Eval(s, TapError(inner, f), ctx, st, more) == Eval(s, TapError(inner, f), ctx, st, fuel)
    decreases fuel, TapError(inner, f), 0
  {
    assert Eval(s, TapError(inner, f), ctx, st, fuel) == EvalTapError(s, inner, f, ctx, st, fuel);
    assert Eval(s, TapError(inner, f), ctx, st, more) == EvalTapError(s, inner, f, ctx, st, more);
    var r := Eval(s, inner, ctx, st, fuel);
    FuelMono(s, inner, ctx, st, fuel, more);
    if r.outcome.Ok? && r.outcome.value.ExitFailure? {
      FuelMono(s, f(r.outcome.value.error), ctx, r.state, fuel - 1, more - 1);
    }
  }

  lemma {:induction false} FlatMapFuelMono(s: Strategy, inner: Effect, f: Value -> Effect, ctx: Context, st: State, fuel: nat, more: nat)
    requires fuel <= more
    requires !Eval(s, FlatMap(inner, f), ctx, st, fuel).outcome.OutOfFuel?
    ensures Eval(s, FlatMap(inner, f), ctx, st, more) == Eval(s, FlatMap(inner, f), ctx, st, fuel)
    decreases fuel, FlatMap(inner, f), 0
  {
    assert Eval(s, FlatMap(inner, f), ctx, st, fuel) == EvalFlatMap(s, inner, f, ctx, st, fuel);
    assert Eval(s, FlatMap(inner, f), ctx, st, more) == EvalFlatMap(s, inner, f, ctx, st, more);
    var r := Eval(s, inner, ctx, st, fuel);
    FuelMono(s, inner, ctx, st, fuel, more);
    if r.outcome.Ok? && r.outcome.value.ExitSuccess? {
      FuelMono(s, f(r.outcome.value.value), ctx, r.state, fuel - 1, more - 1);
    }
  }

  lemma {:induction false} MapFuelMono(s: Strategy, inner: Effect, g: Value -> Value, ctx: Context, st: State, fuel: nat, more: nat)
    requires fuel <= more
    requires !Eval(s, Map(inner, g), ctx, st, fuel).outcome.OutOfFuel?
    ensures Eval(s, Map(inner, g), ctx, st, more) == Eval(s, Map(inner, g), ctx, st, fuel)
    decreases fuel, Map(inner, g), 0
  {
    assert Eval(s, Map(inner, g), ctx, st, fuel) == EvalMap(s, inner, g, ctx, st, fuel);
    assert Eval(s, Map(inner, g), ctx, st, more) == EvalMap(s, inner, g, ctx, st, more);
    FuelMono(s, inner, ctx, st, fuel, more);
  }

  lemma {:induction false} IgnoreFuelMono(s: Strategy, inner: Effect, ctx: Context, st: State, fuel: nat, more: nat)
    requires fuel <= more
    requires !Eval(s, Ignore(inner), ctx, st, fuel).outcome.OutOfFuel?
    ensures Eval(s, Ignore(inner), ctx, st, more) == Eval(s, Ignore(inner), ctx, st, fuel)
    decreases fuel, Ignore(inner), 0
  {
    assert Eval(s, Ignore(inner), ctx, st, fuel) == EvalIgnore(s, inner, ctx, st, fuel);
    assert Eval(s, Ignore(inner), ctx, st, more) == EvalIgnore(s, inner, ctx, st, more);
    FuelMono(s, inner, ctx, st, fuel, more);
  }

  lemma {:induction false} MapErrorFuelMono(s: Strategy, inner: Effect, g: Value -> Value, ctx: Context, st: State, fuel: nat, more: nat)
    requires fuel <= more
    requires !Eval(s, MapError(inner, g), ctx, st, fuel).outcome.OutOfFuel?
    ensures Eval(s, MapError(inner, g), ctx, st, more) == Eval(s, MapError(inner, g), ctx, st, fuel)
    decreases fuel, MapError(inner, g), 0
  {
    assert Eval(s, MapError(inner, g), ctx, st, fuel) == EvalMapError(s, inner, g, ctx, st, fuel);
    assert Eval(s, MapError(inner, g), ctx, st, more) == EvalMapError(s, inner, g, ctx, st, more);
    FuelMono(s, inner, ctx, st, fuel, more);
  }

  lemma {:induction false} AbsorbFuelMono(s: Strategy, inner: Effect, ctx: Context, st: State, fuel: nat, more: nat)
    requires fuel <= more
    requires !Eval(s, Absorb(inner), ctx, st, fuel).outcome.OutOfFuel?
    ensures Eval(s, Absorb(inner), ctx, st, more) == Eval(s, Absorb(inner), ctx, st, fuel)
    decreases fuel, Absorb(inner), 0
  {
    assert Eval(s, Absorb(inner), ctx, st, fuel) == EvalAbsorb(s, inner, ctx, st, fuel);
    assert Eval(s, Absorb(inner), ctx, st, more) == EvalAbsorb(s, inner, ctx, st, more);
    FuelMono(s, inner, ctx, st, fuel, more);
  }

  lemma {:induction false} ProvideFuelMono(s: Strategy, inner: Effect, newCtx: Context, ctx: Context, st: State, fuel: nat, more: nat)
    requires fuel <= more
    requires !Eval(s, Provide(inner, newCtx), ctx, st, fuel).outcome.OutOfFuel?
    ensures Eval(s, Provide(inner, newCtx), ctx, st, more) == Eval(s, Provide(inner, newCtx), ctx, st, fuel)
    decreases fuel, Provide(inner, newCtx), 0
  {
    FuelMono(s, inner, Merge(ctx, newCtx), st, fuel, more);
  }

  lemma {:induction false} MemoizedFuelMono(s: Strategy, inner: Effect, id: int, ctx: Context, st: State, fuel: nat, more: nat)
    requires fuel <= more
    requires !Eval(s, MemoizedEffect(inner, id), ctx, st, fuel).outcome.OutOfFuel?
    ensures Eval(s, MemoizedEffect(inner, id), ctx, st, more) == Eval(s, MemoizedEffect(inner, id), ctx, st, fuel)
    decreases fuel, MemoizedEffect(inner, id), 0
  {
    assert Eval(s, MemoizedEffect(inner, id), ctx, st, fuel) == EvalMemoized(s, inner, id, ctx, st, fuel);
    assert Eval(s, MemoizedEffect(inner, id), ctx, st, more) == EvalMemoized(s, inner, id, ctx, st, more);
    if id !in st.memo {
      FuelMono(s, inner, ctx, st, fuel, more);
    }
  }

  lemma {:induction false} ZipFuelMono(s: Strategy, es: seq<Effect>, i: nat, acc: seq<PyExit>, thrown: Option<PyException>,
                                       ctx: Context, st: State, fuel: nat, more: nat)
    requires i <= |es| && fuel <= more
    requires !ZipFrom(s, es, i, acc, thrown, ctx, st, fuel).outcome.OutOfFuel?
    ensures ZipFrom(s, es, i, acc, thrown, ctx, st, more) == ZipFrom(s, es, i, acc, thrown, ctx, st, fuel)
    decreases fuel, ZipPar(es), |es| - i + 1
  {
    if i < |es| {
      var r := Eval(s, es[i], ctx, st, fuel);
      FuelMono(s, es[i], ctx, st, fuel, more);
      if r.outcome.Ok? && !(s == Blocking && r.outcome.value.ExitFailure?) {
        ZipFuelMono(s, es, i + 1, acc + [r.outcome.value], thrown, ctx, r.state, fuel, more);
      } else if r.outcome.Raised? && s == Cooperative {
        ZipFuelMono(s, es, i + 1, acc, if thrown.Some? then thrown else Some(r.outcome.exn), ctx, r.state, fuel, more);
      }
    }
  }

  // ---------------------------------------------------------------------
  // One node at a time
  // ---------------------------------------------------------------------

  /** Absorb never fails: a success v becomes Right(v), a failure e becomes Left(e). */
  lemma AbsorbNeverFails(s: Strategy, e: Effect, ctx: Context, st: State, fuel: nat)
    ensures var inner := Eval(s, e, ctx, st, fuel);
      var r := Eval(s, Absorb(e), ctx, st, fuel);
      r.state == inner.state &&
      (inner.outcome.Ok? && inner.outcome.value.ExitSuccess? ==>
        r.outcome == Ok(ExitSuccess(EitherV(Right(inner.outcome.value.value))))) &&
      (inner.outcome.Ok? && inner.outcome.value.ExitFailure? ==>
        r.outcome == Ok(ExitSuccess(EitherV(Left(inner.outcome.value.error))))) &&
      (!inner.outcome.Ok? ==> r.outcome == inner.outcome)
  {
  }

  /** Ignore always succeeds with None once its effect has run to an exit. */
  lemma IgnoreAlwaysNone(s: Strategy, e: Effect, ctx: Context, st: State, fuel: nat)
    ensures var inner := Eval(s, e, ctx, st, fuel);
      var r := Eval(s, Ignore(e), ctx, st, fuel);
      r.state == inner.state &&
      (inner.outcome.Ok? ==> r.outcome == Ok(ExitSuccess(NoneV))) &&
      (!inner.outcome.Ok? ==> r.outcome == inner.outcome)
  {
  }

  /** Map applies its function to a success and passes a failure through without calling it. */
  lemma MapLaw(s: Strategy, e: Effect, g: Value -> Value, ctx: Context, st: State, fuel: nat)
    ensures var inner := Eval(s, e, ctx, st, fuel);
      var r := Eval(s, Map(e, g), ctx, st, fuel);
      (inner.outcome.Ok? && inner.outcome.value.ExitSuccess? ==>
        r == Step(Ok(ExitSuccess(g(inner.outcome.value.value))), inner.state)) &&
      (!(inner.outcome.Ok? && inner.outcome.value.ExitSuccess?) ==> r == inner)
  {
  }

  /**
   * FlatMap continues with f's effect on a success; a failure (or a raise)
   * passes through and the result does not depend on f at all.
   */
  lemma FlatMapLaw(s: Strategy, e: Effect, f: Value -> Effect, f2: Value -> Effect, ctx: Context, st: State, fuel: nat)
    ensures var inner := Eval(s, e, ctx, st, fuel);
      (inner.outcome.Ok? && inner.outcome.value.ExitSuccess? && fuel > 0 ==>
        Eval(s, FlatMap(e, f), ctx, st, fuel) == Eval(s, f(inner.outcome.value.value), ctx, inner.state, fuel - 1)) &&
      (!(inner.outcome.Ok? && inner.outcome.value.ExitSuccess?) ==>
        Eval(s, FlatMap(e, f), ctx, st, fuel) == inner == Eval(s, FlatMap(e, f2), ctx, st, fuel))
  {
  }

  /**
   * MapError leaves a success untouched and transforms a failure; when the
   * old and new errors are both exceptions, the new one's cause is the old.
   */
  lemma MapErrorLaw(s: Strategy, e: Effect, g: Value -> Value, ctx: Context, st: State, fuel: nat)
    ensures var inner := Eval(s, e, ctx, st, fuel);
      var r := Eval(s, MapError(e, g), ctx, st, fuel);
      (inner.outcome.Ok? && inner.outcome.value.ExitFailure? ==>
        var original := inner.outcome.value.error;
        r.state == inner.state && r.outcome.Ok? && r.outcome.value.ExitFailure? &&
        (original.Exn? && g(original).Exn? ==>
          r.outcome.value.error == Exn(g(original).exn.(cause := Some(original.exn)))) &&
        (!(original.Exn? && g(original).Exn?) ==> r.outcome.value.error == g(original))) &&
      (!(inner.outcome.Ok? && inner.outcome.value.ExitFailure?) ==> r == inner)
  {
  }

  /**
   * Tap yields the original value when its body succeeds; a failing body is
   * raised out of the runner; a failure of the tapped effect skips the body.
   */
  lemma TapLaw(s: Strategy, e: Effect, f: Value -> Effect, f2: Value -> Effect, ctx: Context, st: State, fuel: nat)
    ensures var inner := Eval(s, e, ctx, st, fuel);
      var r := Eval(s, Tap(e, f), ctx, st, fuel);
      (inner.outcome.Ok? && inner.outcome.value.ExitSuccess? && fuel > 0 ==>
        var v := inner.outcome.value.value;
        var body := Eval(s, f(v), ctx, inner.state, fuel - 1);
        r.state == body.state &&
        (body.outcome.Ok? && body.outcome.value.ExitSuccess? ==> r.outcome == Ok(ExitSuccess(v))) &&
        (body.outcome.Ok? && body.outcome.value.ExitFailure? ==>
          r.outcome == Raised(Raisable(body.outcome.value.error))) &&
        (!body.outcome.Ok? ==> r.outcome == body.outcome)) &&
      (!(inner.outcome.Ok? && inner.outcome.value.ExitSuccess?) ==>
        r == inner == Eval(s, Tap(e, f2), ctx, st, fuel))
  {
  }

  /**
   * TapError is skipped on success; on a failure it runs its body and then
   * re-surfaces the original failure, whatever the body did (a failure or
   * an exception of the body is suppressed).
   */
  lemma TapErrorLaw(s: Strategy, e: Effect, f: Value -> Effect, f2: Value -> Effect, ctx: Context, st: State, fuel: nat)
    ensures var inner := Eval(s, e, ctx, st, fuel);
      var r := Eval(s, TapError(e, f), ctx, st, fuel);
      (inner.outcome.Ok? && inner.outcome.value.ExitFailure? && fuel > 0 ==>
        var body := Eval(s, f(inner.outcome.value.error), ctx, inner.state, fuel - 1);
        !body.outcome.OutOfFuel? ==> r == Step(inner.outcome, body.state)) &&
      (!(inner.outcome.Ok? && inner.outcome.value.ExitFailure?) ==>
        r == inner == Eval(s, TapError(e, f2), ctx, st, fuel))
  {
  }

  /** Provide runs its effect under the ambient context merged with its own. */
  lemma ProvideLaw(s: Strategy, e: Effect, c: Context, ctx: Context, st: State, fuel: nat)
    ensures Eval(s, Provide(e, c), ctx, st, fuel) == Eval(s, e, Merge(ctx, c), st, fuel)
  {
  }

  /** Nested Provide nodes: the innermost binding of a tag wins. */
  lemma InnermostProvideWins(s: Strategy, t: Tag, inner: Context, outer: Context, ctx: Context, st: State, fuel: nat)
    requires t in inner
    ensures Eval(s, Provide(Provide(Service(t), inner), outer), ctx, st, fuel) == Step(Ok(ExitSuccess(inner[t])), st)
  {
    var merged := Merge(Merge(ctx, outer), inner);
    assert Eval(s, Provide(Service(t), inner), Merge(ctx, outer), st, fuel) == Eval(s, Service(t), merged, st, fuel);
  }

  /**
   * Service reads the ambient context; a missing tag raises
   * MissingServiceError out of the runner instead of failing.
   */
  lemma ServiceLaw(s: Strategy, t: Tag, ctx: Context, st: State, fuel: nat)
    ensures t in ctx ==> Eval(s, Service(t), ctx, st, fuel) == Step(Ok(ExitSuccess(ctx[t])), st)
    ensures t !in ctx ==> Eval(s, Service(t), ctx, st, fuel) == Step(Raised(MissingService(t)), st)
  {
  }

  /** A memo hit returns the stored value and runs nothing. */
  lemma MemoHit(s: Strategy, e: Effect, id: int, ctx: Context, st: State, fuel: nat)
    requires id in st.memo
    ensures Eval(s, MemoizedEffect(e, id), ctx, st, fuel) == Step(Ok(ExitSuccess(st.memo[id])), st)
  {
  }

  /** A memo miss runs the effect; a success is stored under the id, anything else is not. */
  lemma MemoMiss(s: Strategy, e: Effect, id: int, ctx: Context, st: State, fuel: nat)
    requires id !in st.memo
    ensures var inner := Eval(s, e, ctx, st, fuel);
      var r := Eval(s, MemoizedEffect(e, id), ctx, st, fuel);
      (inner.outcome.Ok? && inner.outcome.value.ExitSuccess? ==>
        r.outcome == inner.outcome && r.state == inner.state.(memo := inner.state.memo[id := inner.outcome.value.value])) &&
      (!(inner.outcome.Ok? && inner.outcome.value.ExitSuccess?) ==> r == inner)
  {
  }

  /** Sleep succeeds with None and changes nothing. */
  lemma SleepLaw(s: Strategy, d: int, ctx: Context, st: State, fuel: nat)
    ensures Eval(s, Sleep(d), ctx, st, fuel) == Step(Ok(ExitSuccess(NoneV)), st)
  {
  }

  /** The blocking runner refuses Async and TryAsync without calling their thunks. */
  lemma BlockingRefusesAsync(t: Thunk, ctx: Context, st: State, fuel: nat)
    ensures Eval(Blocking, Async(t), ctx, st, fuel) == Step(Raised(CannotRunSync("Async")), st)
    ensures Eval(Blocking, TryAsync(t), ctx, st, fuel) == Step(Raised(CannotRunSync("TryAsync")), st)
    ensures Eval(Cooperative, Async(t), ctx, st, fuel) == Eval(Cooperative, Sync(t), ctx, st, fuel)
    ensures Eval(Cooperative, TryAsync(t), ctx, st, fuel) == Eval(Cooperative, TrySync(t), ctx, st, fuel)
  {
  }

  // ---------------------------------------------------------------------
  // ZipPar join
  // ---------------------------------------------------------------------

  lemma {:induction false} JoinFromSpec(rs: seq<PyExit>, i: nat, values: seq<Value>)
    requires i <= |rs|
    ensures var x := JoinFrom(rs, i, values);
      (x.ExitSuccess? <==> forall j | i <= j < |rs| :: rs[j].ExitSuccess?) &&
      (x.ExitSuccess? ==>
        (x.value.Tuple? && |x.value.items| == |values| + |rs| - i &&
         x.value.items[..|values|] == values &&
         forall j | i <= j < |rs| :: x.value.items[|values| + j - i] == rs[j].value)) &&
      (x.ExitFailure? ==> exists k | i <= k < |rs| :: rs[k] == x && forall j | i <= j < k :: rs[j].ExitSuccess?)
    decreases |rs| - i
  {
    if i < |rs| && rs[i].ExitSuccess? {
      var values' := values + [rs[i].value];
      JoinFromSpec(rs, i + 1, values');
      var x := JoinFrom(rs, i, values);
      if x.ExitSuccess? {
        assert x.value.items[..|values'|][..|values|] == x.value.items[..|values|];
        assert x.value.items[|values|] == values'[|values|];
      }
    }
  }

  /**
   * The cooperative join: the tuple of all values in order when every exit
   * succeeded, otherwise the first failure by position.
   */
  lemma JoinSpec(rs: seq<PyExit>)
    ensures Join(rs).ExitSuccess? <==> forall j | 0 <= j < |rs| :: rs[j].ExitSuccess?
    ensures Join(rs).ExitSuccess? ==> Join(rs).value.Tuple? && |Join(rs).value.items| == |rs|
    ensures Join(rs).ExitSuccess? ==> forall j | 0 <= j < |rs| :: Join(rs).value.items[j] == rs[j].value
    ensures Join(rs).ExitFailure? ==> exists k | 0 <= k < |rs| ::
      rs[k] == Join(rs) && forall j | 0 <= j < k :: rs[j].ExitSuccess?
  {
    JoinFromSpec(rs, 0, []);
  }

  // ---------------------------------------------------------------------
  // Entry points
  // ---------------------------------------------------------------------

  /** `run_sync` settles the exit of `run_sync_exit`: a failure is raised, as `_unwrap` does. */
  lemma RunSyncSettlesExit(e: Effect, w: World, fuel: nat)
    ensures var (x, w1) := RunSyncExit(e, w, fuel);
      var (v, w2) := RunSync(e, w, fuel);
      w1 == w2 &&
      (x.Ok? && x.value.ExitSuccess? ==> v == Ok(x.value.value)) &&
      (x.Ok? && x.value.ExitFailure? ==> v == Raised(Raisable(x.value.error))) &&
      (!x.Ok? ==> v.Raised? == x.Raised? && (x.Raised? ==> v.exn == x.exn))
  {
  }

  /** A missing service escapes even `run_sync_exit`: the run starts with an empty context. */
  lemma MissingServiceEscapes(t: Tag, w: World, fuel: nat)
    ensures RunSyncExit(Service(t), w, fuel) == (Raised(MissingService(t)), w)
    ensures RunAsyncExit(Service(t), w, fuel) == (Raised(MissingService(t)), w)
  {
  }

  /** A failure with a non-exception error raises RuntimeError carrying it from `run_sync`. */
  lemma RunSyncOfFail(err: Value, w: World, fuel: nat)
    ensures RunSync(Fail(err), w, fuel).0 == Raised(Raisable(err))
    ensures RunSyncExit(Fail(err), w, fuel) == (Ok(ExitFailure(err)), w)
  {
  }
}
