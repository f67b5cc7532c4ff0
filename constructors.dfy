// The effect constructors.  `succeed`, `fail`, `sync`, `async_`,
// `try_sync`, `try_async` and `suspend` return one node each, so they are
// the `Primitives.Effect` constructors themselves; what is proved here is
// what running those nodes means.  `service` is the one constructor with
// logic of its own: for several tags it folds a FlatMap/Map chain in a loop.

module Constructors {
  import opened Options
  import opened Values
  import opened Exits
  import opened Contexts
  import opened Primitives
  import opened Runtime
  import opened RuntimeLaws

  /** `(*acc, s)`: the tuple built so far with one more instance at the end. */
  function Snoc(acc: Value, s: Value): Value
  {
    if acc.Tuple? then Tuple(acc.items + [s]) else Tuple([acc, s])
  }

  /** The continuation `lambda s1: Map(Service(t2), lambda s2: (s1, s2))`. */
  function PairWith(t2: Tag): Value -> Effect
  {
    s1 => Map(Service(t2), s2 => Tuple([s1, s2]))
  }

  /** The continuation `lambda acc: Map(Service(t), lambda s: (*acc, s))`. */
  function AppendService(t: Tag): Value -> Effect
  {
    acc => Map(Service(t), s => Snoc(acc, s))
  }

  /** The chain `service(*tags)` has built after folding in every tag (two or more). */
  function ServiceChain(tags: seq<Tag>): Effect
    requires |tags| >= 2
    decreases |tags|
  {
    if |tags| == 2 then FlatMap(Service(tags[0]), PairWith(tags[1]))
    else FlatMap(ServiceChain(tags[..|tags| - 1]), AppendService(tags[|tags| - 1]))
  }

  /** What unpacking `t1, t2, *rest = tags` raises when there are too few tags. */
  function TooFewTags(got: nat): PyException
  {
    PyException(ValueError, "not enough values to unpack", Int(got), Nothing)
  }

  /**
   * `service(*tags)`: a single tag is one Service lookup; two or more are
   * chained left to right into a tuple; no tag at all makes the unpacking
   * raise before any effect exists.
   */
  method Services(tags: seq<Tag>) returns (r: Call<Effect>)
    ensures |tags| == 0 ==> r == Throws(TooFewTags(0))
    ensures |tags| == 1 ==> r == Returns(Service(tags[0]))
    ensures |tags| >= 2 ==> r == Returns(ServiceChain(tags))
  {
    if |tags| == 1 {
      return Returns(Service(tags[0]));
    }
    if |tags| == 0 {
      return Throws(TooFewTags(0));
    }
    var result := FlatMap(Service(tags[0]), PairWith(tags[1]));
    for i := 2 to |tags|
      invariant result == ServiceChain(tags[..i])
    {
      assert tags[..i + 1][..i] == tags[..i];
      result := FlatMap(result, AppendService(tags[i]));
    }
    assert tags[..|tags|] == tags;
    r := Returns(result);
  }

  /**
   * Looking the tags up left to right: the instances in tag order, or the
   * MissingServiceError of the first absent tag.
   */
  function LookupAll(ctx: Context, tags: seq<Tag>): Call<seq<Value>>
    decreases |tags|
  {
    if |tags| == 0 then Returns([])
    else
      match LookupAll(ctx, tags[..|tags| - 1])
      case Throws(x) => Throws(x)
      case Returns(vs) =>
        match Get(ctx, tags[|tags| - 1])
        case Returns(v) => Returns(vs + [v])
        case Throws(x) => Throws(x)
  }

  /**
   * LookupAll succeeds exactly when every tag is bound, with the instances
   * in argument order; otherwise it raises for the first unbound tag.
   */
  lemma {:induction false} LookupAllSpec(ctx: Context, tags: seq<Tag>)
    ensures LookupAll(ctx, tags).Returns? <==> forall i | 0 <= i < |tags| :: tags[i] in ctx
    ensures LookupAll(ctx, tags).Returns? ==>
      |LookupAll(ctx, tags).value| == |tags| &&
      forall i | 0 <= i < |tags| :: LookupAll(ctx, tags).value[i] == ctx[tags[i]]
    ensures LookupAll(ctx, tags).Throws? ==>
      exists k | 0 <= k < |tags| :: tags[k] !in ctx && LookupAll(ctx, tags).exn == MissingService(tags[k]) &&
        forall i | 0 <= i < k :: tags[i] in ctx
    decreases |tags|
  {
    if |tags| > 0 {
      var front := tags[..|tags| - 1];
      LookupAllSpec(ctx, front);
      assert forall i | 0 <= i < |front| :: front[i] == tags[i];
      var last := tags[|tags| - 1];
      if LookupAll(ctx, front).Throws? {
        var k :| 0 <= k < |front| && front[k] !in ctx && LookupAll(ctx, front).exn == MissingService(front[k]) &&
          forall i | 0 <= i < k :: front[i] in ctx;
        assert tags[k] !in ctx;
      } else if last !in ctx {
        assert LookupAll(ctx, tags).exn == MissingService(tags[|tags| - 1]);
      }
    }
  }

  /** Looking up a single tag. */
  lemma LookupOne(ctx: Context, t: Tag)
    ensures LookupAll(ctx, [t]) == if t in ctx then Returns([ctx[t]]) else Throws(MissingService(t))
  {
    assert [t][..0] == [];
    if t in ctx {
      assert [] + [ctx[t]] == [ctx[t]];
    }
  }

  /**
   * Running `service(t1, …, tn)` for n >= 2: the tuple of instances in
   * argument order, or the MissingServiceError of the first unbound tag
   * escaping the runner.  Nothing else changes.
   */
  lemma {:induction false} ServiceChainLooksUpInOrder(s: Strategy, tags: seq<Tag>, ctx: Context, st: State, fuel: nat)
    requires |tags| >= 2 && fuel >= 1
    ensures Eval(s, ServiceChain(tags), ctx, st, fuel) == LookupStep(LookupAll(ctx, tags), st)
    decreases |tags|
  {
    var n := |tags|;
    var front := tags[..n - 1];
    if n == 2 {
      assert front == [tags[0]];
      LookupOne(ctx, tags[0]);
      FirstPairStep(s, tags[0], tags[1], ctx, st, fuel);
    } else {
      ServiceChainLooksUpInOrder(s, front, ctx, st, fuel);
      AppendStep(s, ServiceChain(front), LookupAll(ctx, front), tags[n - 1], ctx, st, fuel);
    }
  }

  /** The step a lookup result makes: its tuple, or its exception escaping. */
  function LookupStep(r: Call<seq<Value>>, st: State): Step
  {
    match r
    case Returns(vs) => Step(Ok(ExitSuccess(Tuple(vs))), st)
    case Throws(x) => Step(Raised(x), st)
  }

  /** The first link of the chain: `t1` and `t2` looked up into a pair. */
  lemma FirstPairStep(s: Strategy, t1: Tag, t2: Tag, ctx: Context, st: State, fuel: nat)
    requires fuel >= 1
    ensures var first := if t1 in ctx then Returns([ctx[t1]]) else Throws(MissingService(t1));
      Eval(s, FlatMap(Service(t1), PairWith(t2)), ctx, st, fuel) ==
        LookupStep(match first
          case Throws(x) => Throws(x)
          case Returns(vs) =>
            match Get(ctx, t2)
            case Returns(v) => Returns(vs + [v])
            case Throws(x) => Throws(x), st)
  {
    ServiceLaw(s, t1, ctx, st, fuel);
    FlatMapLaw(s, Service(t1), PairWith(t2), PairWith(t2), ctx, st, fuel);
    if t1 in ctx {
      ServiceLaw(s, t2, ctx, st, fuel - 1);
      MapLaw(s, Service(t2), PairWith(t2)(ctx[t1]).transform, ctx, st, fuel - 1);
      if t2 in ctx {
        assert [ctx[t1]] + [ctx[t2]] == [ctx[t1], ctx[t2]];
      }
    }
  }

  /** One more link: the tag t appended to whatever the chain so far looked up. */
  lemma AppendStep(s: Strategy, chain: Effect, sofar: Call<seq<Value>>, t: Tag, ctx: Context, st: State, fuel: nat)
    requires fuel >= 1
    requires Eval(s, chain, ctx, st, fuel) == LookupStep(sofar, st)
    ensures Eval(s, FlatMap(chain, AppendService(t)), ctx, st, fuel) ==
      LookupStep(match sofar
        case Throws(x) => Throws(x)
        case Returns(vs) =>
          match Get(ctx, t)
          case Returns(v) => Returns(vs + [v])
          case Throws(x) => Throws(x), st)
  {
    if sofar.Returns? {
      AppendToLookup(s, chain, sofar.value, t, ctx, st, fuel);
    } else {
      FlatMapLaw(s, chain, AppendService(t), AppendService(t), ctx, st, fuel);
    }
  }

  /** AppendStep after a chain that looked up the values vs. */
  lemma AppendToLookup(s: Strategy, chain: Effect, vs: seq<Value>, t: Tag, ctx: Context, st: State, fuel: nat)
    requires fuel >= 1
    requires Eval(s, chain, ctx, st, fuel) == Step(Ok(ExitSuccess(Tuple(vs))), st)
    ensures t in ctx ==> Eval(s, FlatMap(chain, AppendService(t)), ctx, st, fuel) == Step(Ok(ExitSuccess(Tuple(vs + [ctx[t]]))), st)
    ensures t !in ctx ==> Eval(s, FlatMap(chain, AppendService(t)), ctx, st, fuel) == Step(Raised(MissingService(t)), st)
  {
    var k := AppendService(t);
    var g := k(Tuple(vs)).transform;
    FlatMapLaw(s, chain, k, k, ctx, st, fuel);
    assert Eval(s, FlatMap(chain, k), ctx, st, fuel) == Eval(s, Map(Service(t), g), ctx, st, fuel - 1);
    ServiceLaw(s, t, ctx, st, fuel - 1);
    MapLaw(s, Service(t), g, ctx, st, fuel - 1);
  }

  // ---------------------------------------------------------------------
  // What the single-node constructors mean when run
  // ---------------------------------------------------------------------

  /**
   * `sync(thunk)` is lazy: building it calls nothing, and each run calls the
   * thunk exactly once, on the world as the run finds it.  What the thunk
   * raises escapes the runner, even `run_sync_exit`.
   */
  lemma SyncRunsThunkOnRun(t: Thunk, w: World, fuel: nat)
    ensures var (call, after) := t(w);
      RunSyncExit(Sync(t), w, fuel) ==
        (match call
         case Returns(v) => (Ok(ExitSuccess(v)), after)
         case Throws(x) => (Raised(x), after))
  {
  }

  /**
   * `try_sync` against `sync` under `run_sync_exit`: an `Exception` from the
   * thunk becomes the failure with try_sync and escapes with sync; a bare
   * BaseException escapes both; a returned value is the same success.
   */
  lemma TrySyncCatchesWhatSyncRaises(t: Thunk, w: World, fuel: nat)
    ensures var (call, after) := t(w);
      call.Throws? && IsException(call.exn) ==>
        RunSyncExit(TrySync(t), w, fuel) == (Ok(ExitFailure(Exn(call.exn))), after) &&
        RunSyncExit(Sync(t), w, fuel) == (Raised(call.exn), after)
    ensures var (call, after) := t(w);
      !(call.Throws? && IsException(call.exn)) ==>
        RunSyncExit(TrySync(t), w, fuel) == RunSyncExit(Sync(t), w, fuel)
  {
    var st := State(map[], w);
    assert Eval(Blocking, TrySync(t), Empty(), st, fuel) == CallThunk(t, true, st);
    assert Eval(Blocking, Sync(t), Empty(), st, fuel) == CallThunk(t, false, st);
    var (call, after) := t(w);
    if !(call.Throws? && IsException(call.exn)) {
      assert CallThunk(t, true, st) == CallThunk(t, false, st);
    }
  }

  /**
   * `suspend(factory)`: every run calls the factory on the current world
   * and runs the effect it builds from there (one step of fuel).
   */
  lemma SuspendBuildsOnEachRun(s: Strategy, factory: World -> (Call<Effect>, World), w: World, fuel: nat)
    ensures var (made, after) := factory(w);
      RunExit(s, Suspend(factory), w, fuel + 1) ==
        (match made
         case Returns(e) => RunExit(s, e, after, fuel)
         case Throws(x) => (Raised(x), after))
  {
    var st := State(map[], w);
    assert Eval(s, Suspend(factory), Empty(), st, fuel + 1) == EvalSuspend(s, factory, Empty(), st, fuel + 1);
  }

  /** The counter the suspend example increments. */
  const Counter := "i"

  function CounterAt(w: World): int
  {
    if Counter in w && w[Counter].Int? then w[Counter].i else 0
  }

  /** `lambda: succeed((i := i + 1))`: bumps the counter and builds a Succeed of the new count. */
  function BumpAndSucceed(w: World): (Call<Effect>, World)
  {
    var n := CounterAt(w) + 1;
    (Returns(Succeed(Int(n))), w[Counter := Int(n)])
  }

  /**
   * The suspend example: a Succeed built once yields the same value on every
   * run, while `suspend` re-runs its factory, so two runs see n+1, then n+2.
   */
  lemma SuspendSeesFreshState(s: Strategy, v: Value, w: World, fuel: nat)
    ensures RunExit(s, Succeed(v), w, fuel).0 == Ok(ExitSuccess(v))
    ensures var n := CounterAt(w);
      var first := RunExit(s, Suspend(BumpAndSucceed), w, fuel + 1);
      var second := RunExit(s, Suspend(BumpAndSucceed), first.1, fuel + 1);
      first.0 == Ok(ExitSuccess(Int(n + 1))) && second.0 == Ok(ExitSuccess(Int(n + 2))) &&
      CounterAt(second.1) == n + 2
  {
    var n := CounterAt(w);
    var w1 := BumpAndSucceed(w).1;
    SuspendBuildsOnEachRun(s, BumpAndSucceed, w, fuel);
    assert CounterAt(w1) == n + 1;
    SuspendBuildsOnEachRun(s, BumpAndSucceed, w1, fuel);
  }
}
