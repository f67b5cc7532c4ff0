// The fiber runners in their imperative form: a fiber owns the memo table
// (mutated in place when a layer is built) and the world its thunks act on,
// and gathers ZipPar members in a loop.  Each method is proved to do
// exactly what the reference semantics `Runtime.Eval` says.

module Fibers {
  import opened Options
  import opened Eithers
  import opened Values
  import opened Exits
  import opened Contexts
  import opened Primitives
  import opened Runtime

  /** The join scan of the cooperative ZipPar: first failure by position, or the tuple. */
  method JoinResults(rs: seq<PyExit>) returns (x: PyExit)
    ensures x == Join(rs)
  {
    var values: seq<Value> := [];
    for i := 0 to |rs|
      invariant JoinFrom(rs, 0, []) == JoinFrom(rs, i, values)
    {
      match rs[i] {
        case ExitSuccess(v) =>
          values := values + [v];
        case ExitFailure(err) =>
          return ExitFailure(err);
      }
    }
    x := ExitSuccess(Tuple(values));
  }

  class Fiber {
    var memo: map<int, Value>
    var world: World

    /** A fiber as every entry point starts one: an empty memo table. */
    constructor (world: World)
      ensures memo == map[] && this.world == world
    {
      memo := map[];
      this.world := world;
    }

    function Snapshot(): State
      reads this
    {
      State(memo, world)
    }

    method CallThunk(thunk: Thunk, catching: bool) returns (o: Outcome<PyExit>)
      modifies this
      ensures Step(o, Snapshot()) == Runtime.CallThunk(thunk, catching, old(Snapshot()))
    {
      var (call, after) := thunk(world);
      world := after;
      match call {
        case Returns(v) =>
          o := Ok(ExitSuccess(v));
        case Throws(x) =>
          o := if catching && IsException(x) then Ok(ExitFailure(Exn(x))) else Raised(x);
      }
    }

    /** Runs an effect, updating the memo table and the world in place. */
    method Run(s: Strategy, e: Effect, ctx: Context, fuel: nat) returns (o: Outcome<PyExit>)
      modifies this
      ensures Step(o, Snapshot()) == Eval(s, e, ctx, old(Snapshot()), fuel)
      decreases fuel, e, if e.ZipPar? then |e.effects| + 3 else 2
    {
      if IsLeaf(e) {
        o := RunLeaf(s, e, ctx, fuel);
      } else if e.Suspend? || e.Tap? || e.TapError? || e.FlatMap? || e.Map? {
        o := RunSequenced(s, e, ctx, fuel);
      } else {
        o := RunWrapped(s, e, ctx, fuel);
      }
    }

    /** The nodes that run no other effect. */
    static predicate IsLeaf(e: Effect)
    {
      e.Succeed? || e.Fail? || e.Sync? || e.Async? || e.TrySync? || e.TryAsync? || e.Service? || e.Sleep?
    }

    method RunLeaf(s: Strategy, e: Effect, ctx: Context, fuel: nat) returns (o: Outcome<PyExit>)
      requires IsLeaf(e)
      modifies this
      ensures Step(o, Snapshot()) == Eval(s, e, ctx, old(Snapshot()), fuel)
    {
      match e
      case Succeed(v) =>
        o := Ok(ExitSuccess(v));
      case Fail(err) =>
        o := Ok(ExitFailure(err));
      case Sync(thunk) =>
        o := CallThunk(thunk, false);
      case Async(thunk) =>
        if s == Blocking {
          o := Raised(CannotRunSync("Async"));
        } else {
          o := CallThunk(thunk, false);
        }
      case TrySync(thunk) =>
        o := CallThunk(thunk, true);
      case TryAsync(thunk) =>
        if s == Blocking {
          o := Raised(CannotRunSync("TryAsync"));
        } else {
          o := CallThunk(thunk, true);
        }
      case Service(tag) =>
        o := (match Get(ctx, tag)
          case Returns(v) => Ok(ExitSuccess(v))
          case Throws(x) => Raised(x));
      case Sleep(_) =>
        o := Ok(ExitSuccess(NoneV));
    }

    /** The nodes that run an inner effect and may continue with another. */
    method RunSequenced(s: Strategy, e: Effect, ctx: Context, fuel: nat) returns (o: Outcome<PyExit>)
      requires e.Suspend? || e.Tap? || e.TapError? || e.FlatMap? || e.Map?
      modifies this
      ensures Step(o, Snapshot()) == Eval(s, e, ctx, old(Snapshot()), fuel)
      decreases fuel, e, 1
    {
      ghost var before := Snapshot();
      match e
      case Suspend(factory) =>
        assert Eval(s, e, ctx, before, fuel) == EvalSuspend(s, factory, ctx, before, fuel);
        o := RunSuspend(s, factory, ctx, fuel);
      case Tap(inner, f) =>
        assert Eval(s, e, ctx, before, fuel) == EvalTap(s, inner, f, ctx, before, fuel);
        o := RunTap(s, inner, f, ctx, fuel);
      case TapError(inner, f) =>
        assert Eval(s, e, ctx, before, fuel) == EvalTapError(s, inner, f, ctx, before, fuel);
        o := RunTapError(s, inner, f, ctx, fuel);
      case FlatMap(inner, f) =>
        assert Eval(s, e, ctx, before, fuel) == EvalFlatMap(s, inner, f, ctx, before, fuel);
        o := RunFlatMap(s, inner, f, ctx, fuel);
      case Map(inner, g) =>
        assert Eval(s, e, ctx, before, fuel) == EvalMap(s, inner, g, ctx, before, fuel);
        o := RunMap(s, inner, g, ctx, fuel);
    }

    /** The nodes that wrap one inner effect, or several (ZipPar). */
    method RunWrapped(s: Strategy, e: Effect, ctx: Context, fuel: nat) returns (o: Outcome<PyExit>)
      requires e.Ignore? || e.MapError? || e.Absorb? || e.Provide? || e.MemoizedEffect? || e.ZipPar?
      modifies this
      ensures Step(o, Snapshot()) == Eval(s, e, ctx, old(Snapshot()), fuel)
      decreases fuel, e, if e.ZipPar? then |e.effects| + 2 else 1
    {
      ghost var before := Snapshot();
      match e
      case Ignore(inner) =>
        assert Eval(s, e, ctx, before, fuel) == EvalIgnore(s, inner, ctx, before, fuel);
        o := RunIgnore(s, inner, ctx, fuel);
      case MapError(inner, g) =>
        assert Eval(s, e, ctx, before, fuel) == EvalMapError(s, inner, g, ctx, before, fuel);
        o := RunMapError(s, inner, g, ctx, fuel);
      case Absorb(inner) =>
        assert Eval(s, e, ctx, before, fuel) == EvalAbsorb(s, inner, ctx, before, fuel);
        o := RunAbsorb(s, inner, ctx, fuel);
      case Provide(inner, newCtx) =>
        assert Eval(s, e, ctx, before, fuel) == Eval(s, inner, Merge(ctx, newCtx), before, fuel);
        o := Run(s, inner, Merge(ctx, newCtx), fuel);
      case MemoizedEffect(inner, id) =>
        assert Eval(s, e, ctx, before, fuel) == EvalMemoized(s, inner, id, ctx, before, fuel);
        o := RunMemoized(s, inner, id, ctx, fuel);
      case ZipPar(es) =>
        assert Eval(s, e, ctx, before, fuel) == ZipFrom(s, es, 0, [], Nothing, ctx, before, fuel);
        o := RunZip(s, es, ctx, fuel);
    }

    /** Suspend: call the factory, then run what it built. */
    method RunSuspend(s: Strategy, factory: World -> (Call<Effect>, World), ctx: Context, fuel: nat) returns (o: Outcome<PyExit>)
      modifies this
      ensures Step(o, Snapshot()) == EvalSuspend(s, factory, ctx, old(Snapshot()), fuel)
      decreases fuel, Suspend(factory), 0
    {
      var (made, after) := factory(world);
      world := after;
      match made {
        case Returns(next) =>
          if fuel == 0 {
            o := OutOfFuel;
          } else {
            o := Run(s, next, ctx, fuel - 1);
          }
        case Throws(x) =>
          o := Raised(x);
      }
    }

    /** Tap: run the body on the success value; keep the value unless the body failed. */
    method RunTap(s: Strategy, inner: Effect, f: Value -> Effect, ctx: Context, fuel: nat) returns (o: Outcome<PyExit>)
      modifies this
      ensures Step(o, Snapshot()) == EvalTap(s, inner, f, ctx, old(Snapshot()), fuel)
      decreases fuel, Tap(inner, f), 0
    {
      o := Run(s, inner, ctx, fuel);
      if o.Ok? && o.value.ExitSuccess? {
        var v := o.value.value;
        if fuel == 0 {
          o := OutOfFuel;
        } else {
          var body := Run(s, f(v), ctx, fuel - 1);
          o := TapResult(v, body);
        }
      }
    }

    /** TapError: run the body on the error; keep the original failure whatever it does. */
    method RunTapError(s: Strategy, inner: Effect, f: Value -> Effect, ctx: Context, fuel: nat) returns (o: Outcome<PyExit>)
      modifies this
      ensures Step(o, Snapshot()) == EvalTapError(s, inner, f, ctx, old(Snapshot()), fuel)
      decreases fuel, TapError(inner, f), 0
    {
      o := Run(s, inner, ctx, fuel);
      if o.Ok? && o.value.ExitFailure? {
        var err := o.value.error;
        if fuel == 0 {
          o := OutOfFuel;
        } else {
          var body := Run(s, f(err), ctx, fuel - 1);
          o := if body.OutOfFuel? then body else Ok(ExitFailure(err));
        }
      }
    }

    /** Map: transform a success value. */
    method RunMap(s: Strategy, inner: Effect, g: Value -> Value, ctx: Context, fuel: nat) returns (o: Outcome<PyExit>)
      modifies this
      ensures Step(o, Snapshot()) == EvalMap(s, inner, g, ctx, old(Snapshot()), fuel)
      decreases fuel, Map(inner, g), 0
    {
      o := Run(s, inner, ctx, fuel);
      if o.Ok? && o.value.ExitSuccess? {
        o := Ok(ExitSuccess(g(o.value.value)));
      }
    }

    /** Ignore: any exit becomes a success with None. */
    method RunIgnore(s: Strategy, inner: Effect, ctx: Context, fuel: nat) returns (o: Outcome<PyExit>)
      modifies this
      ensures Step(o, Snapshot()) == EvalIgnore(s, inner, ctx, old(Snapshot()), fuel)
      decreases fuel, Ignore(inner), 0
    {
      o := Run(s, inner, ctx, fuel);
      if o.Ok? {
        o := Ok(ExitSuccess(NoneV));
      }
    }

    /** MapError: transform a failure, chaining the cause between exceptions. */
    method RunMapError(s: Strategy, inner: Effect, g: Value -> Value, ctx: Context, fuel: nat) returns (o: Outcome<PyExit>)
      modifies this
      ensures Step(o, Snapshot()) == EvalMapError(s, inner, g, ctx, old(Snapshot()), fuel)
      decreases fuel, MapError(inner, g), 0
    {
      o := Run(s, inner, ctx, fuel);
      if o.Ok? && o.value.ExitFailure? {
        var original := o.value.error;
        o := Ok(ExitFailure(WithCause(g(original), original)));
      }
    }

    /** Absorb: a success becomes Right, a failure Left. */
    method RunAbsorb(s: Strategy, inner: Effect, ctx: Context, fuel: nat) returns (o: Outcome<PyExit>)
      modifies this
      ensures Step(o, Snapshot()) == EvalAbsorb(s, inner, ctx, old(Snapshot()), fuel)
      decreases fuel, Absorb(inner), 0
    {
      o := Run(s, inner, ctx, fuel);
      if o.Ok? {
        o := (match o.value
          case ExitSuccess(v) => Ok(ExitSuccess(EitherV(Right(v))))
          case ExitFailure(err) => Ok(ExitSuccess(EitherV(Left(err)))));
      }
    }

    /** FlatMap: run the continuation on the success value. */
    method RunFlatMap(s: Strategy, inner: Effect, f: Value -> Effect, ctx: Context, fuel: nat) returns (o: Outcome<PyExit>)
      modifies this
      ensures Step(o, Snapshot()) == EvalFlatMap(s, inner, f, ctx, old(Snapshot()), fuel)
      decreases fuel, FlatMap(inner, f), 0
    {
      o := Run(s, inner, ctx, fuel);
      if o.Ok? && o.value.ExitSuccess? {
        if fuel == 0 {
          o := OutOfFuel;
        } else {
          o := Run(s, f(o.value.value), ctx, fuel - 1);
        }
      }
    }

    /** MemoizedEffect: a hit returns the stored value; a successful miss is stored in place. */
    method RunMemoized(s: Strategy, inner: Effect, id: int, ctx: Context, fuel: nat) returns (o: Outcome<PyExit>)
      modifies this
      ensures Step(o, Snapshot()) == EvalMemoized(s, inner, id, ctx, old(Snapshot()), fuel)
      decreases fuel, MemoizedEffect(inner, id), 0
    {
      if id in memo {
        o := Ok(ExitSuccess(memo[id]));
      } else {
        o := Run(s, inner, ctx, fuel);
        if o.Ok? && o.value.ExitSuccess? {
          memo := memo[id := o.value.value];
        }
      }
    }

    /**
     * ZipPar: the members in listed order.  The blocking runner returns the
     * first failure or raise at once; the cooperative runner runs every
     * member, keeps the first exception, and then raises it or joins the
     * exits.
     */
    method RunZip(s: Strategy, es: seq<Effect>, ctx: Context, fuel: nat) returns (o: Outcome<PyExit>)
      modifies this
      ensures Step(o, Snapshot()) == ZipFrom(s, es, 0, [], Nothing, ctx, old(Snapshot()), fuel)
      decreases fuel, ZipPar(es), 0
    {
      var exits: seq<PyExit> := [];
      var thrown: Option<PyException> := Nothing;
      for i := 0 to |es|
        invariant ZipFrom(s, es, 0, [], Nothing, ctx, old(Snapshot()), fuel)
               == ZipFrom(s, es, i, exits, thrown, ctx, Snapshot(), fuel)
      {
        var r := Run(s, es[i], ctx, fuel);
        if r.OutOfFuel? || (s == Blocking && (r.Raised? || r.value.ExitFailure?)) {
          return r;
        }
        if r.Raised? {
          if thrown.Nothing? {
            thrown := Some(r.exn);
          }
        } else {
          exits := exits + [r.value];
        }
      }
      if thrown.Some? {
        o := Raised(thrown.value);
      } else {
        var joined := JoinResults(exits);
        o := Ok(joined);
      }
    }
  }

  /** `run_sync_exit` / `run_async_exit`: a fresh fiber with an empty context. */
  method RunExit(s: Strategy, e: Effect, world: World, fuel: nat) returns (o: Outcome<PyExit>, after: World)
    ensures (o, after) == Runtime.RunExit(s, e, world, fuel)
  {
    var fiber := new Fiber(world);
    o := fiber.Run(s, e, Empty(), fuel);
    after := fiber.world;
  }

  /** `run_sync` / `run_async`: the exit settled by `_unwrap`. */
  method RunValue(s: Strategy, e: Effect, world: World, fuel: nat) returns (o: Outcome<Value>, after: World)
    ensures s == Blocking ==> (o, after) == Runtime.RunSync(e, world, fuel)
    ensures s == Cooperative ==> (o, after) == Runtime.RunAsync(e, world, fuel)
  {
    var x;
    x, after := RunExit(s, e, world, fuel);
    o := Settle(x);
  }
}
