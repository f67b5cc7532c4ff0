// Control-flow combinators: `if_`, `when`/`unless`, `when_effect`/
// `unless_effect`, `zip`, `zip_with` and `loop`.  Each builds a small
// FlatMap/Map/Suspend graph; what is proved is what running that graph does.

module Control {
  import opened Options
  import opened Values
  import opened Exits
  import opened Contexts
  import opened Primitives
  import opened Runtime
  import opened RuntimeLaws
  import opened Constructors

  // ---------------------------------------------------------------------
  // if_
  // ---------------------------------------------------------------------

  /** `branch(b)`: Python truthiness of the predicate's value picks the branch. */
  function Branch(onTrue: Effect, onFalse: Effect): Value -> Effect
  {
    b => if Truthy(b) then onTrue else onFalse
  }

  /** `if_(test, on_true=..., on_false=...)`. */
  function If(test: Effect, onTrue: Effect, onFalse: Effect): Effect
  {
    FlatMap(test, Branch(onTrue, onFalse))
  }

  /**
   * The predicate runs first; a truthy value runs on_true, any other value
   * on_false, each from the state the predicate left.  When the predicate
   * fails or raises, neither branch runs and its result is the whole result.
   */
  lemma IfRunsOneBranch(s: Strategy, test: Effect, onTrue: Effect, onFalse: Effect,
                        ctx: Context, st: State, fuel: nat)
    ensures var p := Eval(s, test, ctx, st, fuel + 1);
      var r := Eval(s, If(test, onTrue, onFalse), ctx, st, fuel + 1);
      (p.outcome.Ok? && p.outcome.value.ExitSuccess? && Truthy(p.outcome.value.value) ==>
        r == Eval(s, onTrue, ctx, p.state, fuel)) &&
      (p.outcome.Ok? && p.outcome.value.ExitSuccess? && !Truthy(p.outcome.value.value) ==>
        r == Eval(s, onFalse, ctx, p.state, fuel)) &&
      (!(p.outcome.Ok? && p.outcome.value.ExitSuccess?) ==> r == p)
  {
    FlatMapLaw(s, test, Branch(onTrue, onFalse), Branch(onTrue, onFalse), ctx, st, fuel + 1);
  }

  // ---------------------------------------------------------------------
  // when / unless
  // ---------------------------------------------------------------------

  /** `lambda a: Succeed(some(a))`. */
  function WrapSome(a: Value): Effect
  {
    Succeed(OptionV(Some(a)))
  }

  /** `Succeed(nothing())`. */
  function SkipWithNothing(): Effect
  {
    Succeed(OptionV(Nothing))
  }

  /** The effect `when`/`unless` choose between once the condition is known. */
  function Guarded(run: bool, eff: Effect): Effect
  {
    if run then FlatMap(eff, WrapSome) else SkipWithNothing()
  }

  /**
   * `when(condition)`: the condition thunk is consulted when the effect
   * runs (inside a Suspend), not when it is built.  The condition reads the
   * world and does not change it.
   */
  function When(condition: World -> bool): Effect -> Effect
  {
    eff => Suspend(w => (Returns(Guarded(condition(w), eff)), w))
  }

  /** `unless(condition)`: `when` with the condition negated. */
  function Unless(condition: World -> bool): Effect -> Effect
  {
    eff => Suspend(w => (Returns(Guarded(!condition(w), eff)), w))
  }

  /**
   * A run of `when(condition)(eff)` consults the condition on the current
   * world: when it holds, eff runs and its value comes back as Some (a
   * failure of eff is passed on); when it does not, eff is skipped, nothing
   * changes and the result is Nothing.
   */
  lemma WhenRunsOnlyIfCondition(s: Strategy, condition: World -> bool, eff: Effect,
                                ctx: Context, st: State, fuel: nat)
    ensures var r := Eval(s, When(condition)(eff), ctx, st, fuel + 2);
      var inner := Eval(s, eff, ctx, st, fuel + 1);
      (condition(st.world) && inner.outcome.Ok? && inner.outcome.value.ExitSuccess? ==>
        r == Step(Ok(ExitSuccess(OptionV(Some(inner.outcome.value.value)))), inner.state)) &&
      (condition(st.world) && !(inner.outcome.Ok? && inner.outcome.value.ExitSuccess?) ==> r == inner) &&
      (!condition(st.world) ==> r == Step(Ok(ExitSuccess(OptionV(Nothing))), st))
  {
    assert Eval(s, When(condition)(eff), ctx, st, fuel + 2)
        == Eval(s, Guarded(condition(st.world), eff), ctx, st, fuel + 1);
    FlatMapLaw(s, eff, WrapSome, WrapSome, ctx, st, fuel + 1);
  }

  /** `unless(condition)` runs exactly like `when(lambda: not condition())`. */
  lemma UnlessIsWhenNegated(s: Strategy, condition: World -> bool, eff: Effect,
                            ctx: Context, st: State, fuel: nat)
    ensures Eval(s, Unless(condition)(eff), ctx, st, fuel)
         == Eval(s, When(w => !condition(w))(eff), ctx, st, fuel)
  {
    var negated := w => !condition(w);
    assert Eval(s, Unless(condition)(eff), ctx, st, fuel)
        == EvalSuspend(s, w => (Returns(Guarded(!condition(w), eff)), w), ctx, st, fuel);
    assert Eval(s, When(negated)(eff), ctx, st, fuel)
        == EvalSuspend(s, w => (Returns(Guarded(negated(w), eff)), w), ctx, st, fuel);
  }

  // ---------------------------------------------------------------------
  // when_effect / unless_effect
  // ---------------------------------------------------------------------

  /** `when_effect(condition)`: the condition is an effect run first. */
  function WhenEffect(condition: Effect): Effect -> Effect
  {
    eff => FlatMap(condition, b => Guarded(Truthy(b), eff))
  }

  /** `unless_effect(condition)`. */
  function UnlessEffect(condition: Effect): Effect -> Effect
  {
    eff => FlatMap(condition, b => Guarded(!Truthy(b), eff))
  }

  /** `lambda b: not b`, as a value. */
  function Negate(b: Value): Value
  {
    Bool(!Truthy(b))
  }

  /**
   * A run of `when_effect(condition)(eff)`: the condition runs first; a
   * truthy value runs eff and wraps its value in Some, any other value
   * skips eff and yields Nothing; a failing condition is the result and eff
   * never runs.
   */
  lemma WhenEffectRunsOnlyIfTrue(s: Strategy, condition: Effect, eff: Effect,
                                 ctx: Context, st: State, fuel: nat)
    ensures var c := Eval(s, condition, ctx, st, fuel + 2);
      var r := Eval(s, WhenEffect(condition)(eff), ctx, st, fuel + 2);
      (c.outcome.Ok? && c.outcome.value.ExitSuccess? ==>
        var inner := Eval(s, eff, ctx, c.state, fuel + 1);
        (Truthy(c.outcome.value.value) && inner.outcome.Ok? && inner.outcome.value.ExitSuccess? ==>
          r == Step(Ok(ExitSuccess(OptionV(Some(inner.outcome.value.value)))), inner.state)) &&
        (Truthy(c.outcome.value.value) && !(inner.outcome.Ok? && inner.outcome.value.ExitSuccess?) ==>
          r == inner) &&
        (!Truthy(c.outcome.value.value) ==> r == Step(Ok(ExitSuccess(OptionV(Nothing))), c.state))) &&
      (!(c.outcome.Ok? && c.outcome.value.ExitSuccess?) ==> r == c)
  {
    var k := b => Guarded(Truthy(b), eff);
    FlatMapLaw(s, condition, k, k, ctx, st, fuel + 2);
    var c := Eval(s, condition, ctx, st, fuel + 2);
    if c.outcome.Ok? && c.outcome.value.ExitSuccess? {
      FlatMapLaw(s, eff, WrapSome, WrapSome, ctx, c.state, fuel + 1);
    }
  }

  /** `unless_effect(condition)` is `when_effect` of the negated condition. */
  lemma UnlessEffectIsWhenEffectNegated(s: Strategy, condition: Effect, eff: Effect,
                                        ctx: Context, st: State, fuel: nat)
    ensures Eval(s, UnlessEffect(condition)(eff), ctx, st, fuel)
         == Eval(s, WhenEffect(Map(condition, Negate))(eff), ctx, st, fuel)
  {
    var k1 := b => Guarded(!Truthy(b), eff);
    var k2 := b => Guarded(Truthy(b), eff);
    FlatMapLaw(s, condition, k1, k1, ctx, st, fuel);
    FlatMapLaw(s, Map(condition, Negate), k2, k2, ctx, st, fuel);
    MapLaw(s, condition, Negate, ctx, st, fuel);
  }

  // ---------------------------------------------------------------------
  // zip
  // ---------------------------------------------------------------------

  /** What `zip()` raises when given no effect at all. */
  function ZipNeedsEffect(): PyException
  {
    PyException(ValueError, "zip requires at least one effect", NoneV, Nothing)
  }

  /** `lambda a: (a,)`. */
  function OneTuple(a: Value): Value
  {
    Tuple([a])
  }

  /** `lambda t, e=eff: Map(e, lambda x, t=t: (*t, x))`. */
  function AppendEffect(e: Effect): Value -> Effect
  {
    t => Map(e, x => Snoc(t, x))
  }

  /** The sequential chain `zip(*effects)` has built after folding in every effect. */
  function ZipChain(es: seq<Effect>): Effect
    requires |es| >= 1
    decreases |es|
  {
    if |es| == 1 then Map(es[0], OneTuple)
    else FlatMap(ZipChain(es[..|es| - 1]), AppendEffect(es[|es| - 1]))
  }

  /**
   * `zip(*effects, concurrent=...)`: no effect raises ValueError; concurrent
   * is one ZipPar node; otherwise the effects are chained left to right.
   */
  method Zip(effects: seq<Effect>, concurrent: bool) returns (r: Call<Effect>)
    ensures |effects| == 0 ==> r == Throws(ZipNeedsEffect())
    ensures |effects| > 0 && concurrent ==> r == Returns(ZipPar(effects))
    ensures |effects| > 0 && !concurrent ==> r == Returns(ZipChain(effects))
  {
    if |effects| == 0 {
      return Throws(ZipNeedsEffect());
    }
    if concurrent {
      return Returns(ZipPar(effects));
    }
    var result := Map(effects[0], OneTuple);
    for i := 1 to |effects|
      invariant result == ZipChain(effects[..i])
    {
      assert effects[..i + 1][..i] == effects[..i];
      result := FlatMap(result, AppendEffect(effects[i]));
    }
    assert effects[..|effects|] == effects;
    r := Returns(result);
  }

  /**
   * Running effects one after another, each from the state the previous
   * one left, collecting their values into a tuple and stopping at the
   * first one that does not succeed (whose result is then the result).
   * Every effect gets the same fuel.
   */
  function ZipRun(s: Strategy, es: seq<Effect>, ctx: Context, st: State, fuel: nat): Step
    decreases |es|
  {
    if |es| == 0 then Step(Ok(ExitSuccess(Tuple([]))), st)
    else
      var p := ZipRun(s, es[..|es| - 1], ctx, st, fuel);
      match p.outcome
      case Ok(ExitSuccess(acc)) =>
        var r := Eval(s, es[|es| - 1], ctx, p.state, fuel);
        (match r.outcome
         case Ok(ExitSuccess(x)) => Step(Ok(ExitSuccess(Snoc(acc, x))), r.state)
         case _ => r)
      case _ => p
  }

  /** A successful sequential run yields a tuple with one value per effect. */
  lemma {:induction false} ZipRunIsTuple(s: Strategy, es: seq<Effect>, ctx: Context, st: State, fuel: nat)
    ensures var p := ZipRun(s, es, ctx, st, fuel);
      p.outcome.Ok? && p.outcome.value.ExitSuccess? ==>
        p.outcome.value.value.Tuple? && |p.outcome.value.value.items| == |es|
  {
    if |es| > 0 {
      ZipRunIsTuple(s, es[..|es| - 1], ctx, st, fuel);
    }
  }

  /**
   * Nothing after the first effect that does not succeed runs: once the
   * run of a prefix has stopped, the run of the whole is that same result,
   * in the same state.
   */
  lemma {:induction false} ZipRunStopsAtFirstFailure(s: Strategy, es: seq<Effect>, k: nat,
                                                      ctx: Context, st: State, fuel: nat)
    requires k <= |es|
    requires var p := ZipRun(s, es[..k], ctx, st, fuel); !(p.outcome.Ok? && p.outcome.value.ExitSuccess?)
    ensures ZipRun(s, es, ctx, st, fuel) == ZipRun(s, es[..k], ctx, st, fuel)
    decreases |es| - k
  {
    if k < |es| {
      var front := es[..|es| - 1];
      assert front[..k] == es[..k];
      ZipRunStopsAtFirstFailure(s, front, k, ctx, st, fuel);
    } else {
      assert es[..k] == es;
    }
  }

  /**
   * The sequential `zip` chain runs its effects in order and stops at the
   * first one that does not succeed: it is ZipRun, given one more unit of
   * fuel for the first effect (the chain's own FlatMap steps spend it),
   * whenever ZipRun itself does not run out.
   */
  lemma {:induction false} ZipChainRunsInOrder(s: Strategy, es: seq<Effect>, ctx: Context, st: State, fuel: nat)
    requires |es| >= 1
    requires !ZipRun(s, es, ctx, st, fuel).outcome.OutOfFuel?
    ensures Eval(s, ZipChain(es), ctx, st, fuel + 1) == ZipRun(s, es, ctx, st, fuel)
    decreases |es|
  {
    var n := |es|;
    var front := es[..n - 1];
    var p := ZipRun(s, front, ctx, st, fuel);
    if n == 1 {
      assert front == [];
      var r := Eval(s, es[0], ctx, st, fuel);
      assert !r.outcome.OutOfFuel?;
      FuelMono(s, es[0], ctx, st, fuel, fuel + 1);
      MapLaw(s, es[0], OneTuple, ctx, st, fuel + 1);
      if r.outcome.Ok? && r.outcome.value.ExitSuccess? {
        assert Snoc(Tuple([]), r.outcome.value.value) == OneTuple(r.outcome.value.value);
      }
    } else {
      assert !p.outcome.OutOfFuel?;
      ZipChainRunsInOrder(s, front, ctx, st, fuel);
      assert ZipChain(es) == FlatMap(ZipChain(front), AppendEffect(es[n - 1]));
      FlatMapLaw(s, ZipChain(front), AppendEffect(es[n - 1]), AppendEffect(es[n - 1]), ctx, st, fuel + 1);
      if p.outcome.Ok? && p.outcome.value.ExitSuccess? {
        var acc := p.outcome.value.value;
        MapLaw(s, es[n - 1], x => Snoc(acc, x), ctx, p.state, fuel);
      }
    }
  }

  /** The exits of effects that all succeeded with the given values. */
  function Successes(vs: seq<Value>): (rs: seq<PyExit>)
    ensures |rs| == |vs| && forall j | 0 <= j < |vs| :: rs[j] == ExitSuccess(vs[j])
  {
    seq(|vs|, j requires 0 <= j < |vs| => ExitSuccess(vs[j]))
  }

  lemma JoinOfSuccesses(vs: seq<Value>)
    ensures Join(Successes(vs)) == ExitSuccess(Tuple(vs))
  {
    JoinSpec(Successes(vs));
    assert Join(Successes(vs)).value.items == vs;
  }

  /**
   * One step of the blocking ZipPar scan from position i: with the values of
   * the first i effects already gathered exactly as ZipRun gathers them, the
   * rest of the scan ends as ZipRun over all the effects.
   */
  lemma {:induction false} BlockingZipFromIsZipRun(es: seq<Effect>, i: nat, vs: seq<Value>,
                                                   ctx: Context, st0: State, st: State, fuel: nat)
    requires i <= |es|
    requires ZipRun(Blocking, es[..i], ctx, st0, fuel) == Step(Ok(ExitSuccess(Tuple(vs))), st)
    ensures ZipFrom(Blocking, es, i, Successes(vs), Nothing, ctx, st, fuel) == ZipRun(Blocking, es, ctx, st0, fuel)
    decreases |es| - i
  {
    if i == |es| {
      assert es[..i] == es;
      JoinOfSuccesses(vs);
    } else {
      var r := Eval(Blocking, es[i], ctx, st, fuel);
      var next := es[..i + 1];
      assert next[..i] == es[..i];
      assert ZipFrom(Blocking, es, i, Successes(vs), Nothing, ctx, st, fuel)
          == (match r.outcome
              case Ok(x) =>
                if x.ExitFailure? then r
                else ZipFrom(Blocking, es, i + 1, Successes(vs) + [x], Nothing, ctx, r.state, fuel)
              case _ => r);
      if r.outcome.Ok? && r.outcome.value.ExitSuccess? {
        var x := r.outcome.value.value;
        assert Successes(vs) + [ExitSuccess(x)] == Successes(vs + [x]);
        assert ZipRun(Blocking, next, ctx, st0, fuel) == Step(Ok(ExitSuccess(Tuple(vs + [x]))), r.state);
        BlockingZipFromIsZipRun(es, i + 1, vs + [x], ctx, st0, r.state, fuel);
      } else {
        assert ZipRun(Blocking, next, ctx, st0, fuel) == r;
        ZipRunStopsAtFirstFailure(Blocking, es, i + 1, ctx, st0, fuel);
      }
    }
  }

  /**
   * Under `run_sync` a concurrent `zip` runs sequentially: the ZipPar node
   * behaves exactly as ZipRun (values in order, stop at the first failure).
   */
  lemma ZipParIsSequentialWhenBlocking(es: seq<Effect>, ctx: Context, st: State, fuel: nat)
    ensures Eval(Blocking, ZipPar(es), ctx, st, fuel) == ZipRun(Blocking, es, ctx, st, fuel)
  {
    assert es[..0] == [];
    assert Successes([]) == [];
    BlockingZipFromIsZipRun(es, 0, [], ctx, st, st, fuel);
  }

  // ---------------------------------------------------------------------
  // zip_with
  // ---------------------------------------------------------------------

  /** `lambda t: f(t[0], t[1])` on the pair ZipPar produces. */
  function ApplyToPair(f: (Value, Value) -> Value): Value -> Value
  {
    (t: Value) => if t.Tuple? && |t.items| >= 2 then f(t.items[0], t.items[1]) else t
  }

  /** `lambda a: Map(eff2, lambda b: f(a, b))`. */
  function ThenApply(e2: Effect, f: (Value, Value) -> Value): Value -> Effect
  {
    a => Map(e2, b => f(a, b))
  }

  /** `zip_with(eff1, eff2, f, concurrent=...)`. */
  function ZipWith(e1: Effect, e2: Effect, f: (Value, Value) -> Value, concurrent: bool): Effect
  {
    if concurrent then Map(ZipPar([e1, e2]), ApplyToPair(f))
    else FlatMap(e1, ThenApply(e2, f))
  }

  /**
   * Sequential `zip_with`: eff1 runs, then eff2 from the state it left, and
   * f combines the two values; a failure of eff1 is the result and eff2
   * never runs; a failure of eff2 is the result.
   */
  lemma ZipWithSequential(s: Strategy, e1: Effect, e2: Effect, f: (Value, Value) -> Value,
                          ctx: Context, st: State, fuel: nat)
    ensures var r1 := Eval(s, e1, ctx, st, fuel + 1);
      var r := Eval(s, ZipWith(e1, e2, f, false), ctx, st, fuel + 1);
      (r1.outcome.Ok? && r1.outcome.value.ExitSuccess? ==>
        var r2 := Eval(s, e2, ctx, r1.state, fuel);
        (r2.outcome.Ok? && r2.outcome.value.ExitSuccess? ==>
          r == Step(Ok(ExitSuccess(f(r1.outcome.value.value, r2.outcome.value.value))), r2.state)) &&
        (!(r2.outcome.Ok? && r2.outcome.value.ExitSuccess?) ==> r == r2)) &&
      (!(r1.outcome.Ok? && r1.outcome.value.ExitSuccess?) ==> r == r1)
  {
    FlatMapLaw(s, e1, ThenApply(e2, f), ThenApply(e2, f), ctx, st, fuel + 1);
    var r1 := Eval(s, e1, ctx, st, fuel + 1);
    if r1.outcome.Ok? && r1.outcome.value.ExitSuccess? {
      var a := r1.outcome.value.value;
      MapLaw(s, e2, b => f(a, b), ctx, r1.state, fuel);
    }
  }

  /** A step that ended in a successful exit. */
  predicate Succeeded(r: Step)
  {
    r.outcome.Ok? && r.outcome.value.ExitSuccess?
  }

  /**
   * Concurrent `zip_with`, each effect run from the state the previous one
   * left, with the same fuel.  When both succeed the result is f of the two
   * values; the tuple in between is never seen.  Under `run_sync` the pair
   * runs sequentially: a failure or raise of eff1 is the result and eff2
   * never runs, and otherwise a failure or raise of eff2 is the result.
   * Under `run_async` both always run: a raise of either escapes (eff1's
   * first), and otherwise the first failure by position is the result, in
   * the state after eff2.
   */
  lemma ZipWithConcurrent(s: Strategy, e1: Effect, e2: Effect, f: (Value, Value) -> Value,
                          ctx: Context, st: State, fuel: nat)
    ensures var r1 := Eval(s, e1, ctx, st, fuel);
      var r2 := Eval(s, e2, ctx, r1.state, fuel);
      var r := Eval(s, ZipWith(e1, e2, f, true), ctx, st, fuel);
      (Succeeded(r1) && Succeeded(r2) ==>
        r == Step(Ok(ExitSuccess(f(r1.outcome.value.value, r2.outcome.value.value))), r2.state)) &&
      (s == Blocking && !Succeeded(r1) ==> r == r1) &&
      (s == Blocking && Succeeded(r1) && !Succeeded(r2) ==> r == r2) &&
      (s == Cooperative && r1.outcome.OutOfFuel? ==> r == r1) &&
      (s == Cooperative && !r1.outcome.OutOfFuel? && r2.outcome.OutOfFuel? ==> r == r2) &&
      (s == Cooperative && r1.outcome.Raised? && !r2.outcome.OutOfFuel? ==> r == Step(r1.outcome, r2.state)) &&
      (s == Cooperative && r1.outcome.Ok? && r2.outcome.Raised? ==> r == r2) &&
      (s == Cooperative && r1.outcome.Ok? && r1.outcome.value.ExitFailure? && r2.outcome.Ok? ==>
        r == Step(r1.outcome, r2.state)) &&
      (s == Cooperative && Succeeded(r1) && r2.outcome.Ok? && r2.outcome.value.ExitFailure? ==> r == r2)
  {
    var r1 := Eval(s, e1, ctx, st, fuel);
    MapLaw(s, ZipPar([e1, e2]), ApplyToPair(f), ctx, st, fuel);
    PairZip(s, e1, e2, ctx, st, fuel);
    if r1.outcome.Ok? {
      var r2 := Eval(s, e2, ctx, r1.state, fuel);
      if r2.outcome.Ok? {
        JoinPair(r1.outcome.value, r2.outcome.value);
      }
    }
  }

  /**
   * The ZipPar of two effects: each member from the state the previous one
   * left; a raise under `run_async` does not stop the second member.
   */
  lemma PairZip(s: Strategy, e1: Effect, e2: Effect, ctx: Context, st: State, fuel: nat)
    ensures var r1 := Eval(s, e1, ctx, st, fuel);
      var r2 := Eval(s, e2, ctx, r1.state, fuel);
      var z := Eval(s, ZipPar([e1, e2]), ctx, st, fuel);
      (Continues(s, r1) && Continues(s, r2) ==>
        z == Step(Ok(Join([r1.outcome.value, r2.outcome.value])), r2.state)) &&
      (Continues(s, r1) && !Continues(s, r2) ==> z == r2) &&
      (s == Cooperative && r1.outcome.Raised? && !r2.outcome.OutOfFuel? ==> z == Step(r1.outcome, r2.state)) &&
      (s == Cooperative && r1.outcome.Raised? && r2.outcome.OutOfFuel? ==> z == r2) &&
      (r1.outcome.OutOfFuel? || (s == Blocking && !Succeeded(r1)) ==> z == r1)
  {
    var es := [e1, e2];
    assert es[0] == e1 && es[1] == e2;
    assert Eval(s, ZipPar(es), ctx, st, fuel) == ZipFrom(s, es, 0, [], Nothing, ctx, st, fuel);
    var r1 := Eval(s, e1, ctx, st, fuel);
    if Continues(s, r1) {
      PairSecond(s, es, r1.outcome.value, ctx, r1.state, fuel);
      assert [] + [r1.outcome.value] == [r1.outcome.value];
    } else if r1.outcome.Raised? && s == Cooperative {
      assert ZipFrom(s, es, 0, [], Nothing, ctx, st, fuel) == ZipFrom(s, es, 1, [], Some(r1.outcome.exn), ctx, r1.state, fuel);
      PairSecondAfterRaise(es, r1.outcome.exn, ctx, r1.state, fuel);
    }
  }

  /** The scan goes on past a member's step r: an exit that does not stop the blocking runner. */
  predicate Continues(s: Strategy, r: Step)
  {
    r.outcome.Ok? && !(s == Blocking && r.outcome.value.ExitFailure?)
  }

  /** The last step of a two-member scan, after a first member that left exit x1. */
  lemma PairSecond(s: Strategy, es: seq<Effect>, x1: PyExit, ctx: Context, st: State, fuel: nat)
    requires |es| == 2
    ensures var r2 := Eval(s, es[1], ctx, st, fuel);
      var z := ZipFrom(s, es, 1, [x1], Nothing, ctx, st, fuel);
      (Continues(s, r2) ==> z == Step(Ok(Join([x1, r2.outcome.value])), r2.state)) &&
      (!Continues(s, r2) ==> z == r2)
  {
    var r2 := Eval(s, es[1], ctx, st, fuel);
    if Continues(s, r2) {
      assert [x1] + [r2.outcome.value] == [x1, r2.outcome.value];
    }
  }

  /** The last step of a two-member cooperative scan, after a first member that raised x. */
  lemma PairSecondAfterRaise(es: seq<Effect>, x: PyException, ctx: Context, st: State, fuel: nat)
    requires |es| == 2
    ensures var r2 := Eval(Cooperative, es[1], ctx, st, fuel);
      var z := ZipFrom(Cooperative, es, 1, [], Some(x), ctx, st, fuel);
      (r2.outcome.OutOfFuel? ==> z == r2) &&
      (!r2.outcome.OutOfFuel? ==> z == Step(Raised(x), r2.state))
  {
    var r2 := Eval(Cooperative, es[1], ctx, st, fuel);
    if r2.outcome.Ok? {
      assert [] + [r2.outcome.value] == [r2.outcome.value];
    }
  }

  /** The cooperative join of two exits: the first failure by position, or the pair of values. */
  lemma JoinPair(x1: PyExit, x2: PyExit)
    ensures Join([x1, x2]) == (if x1.ExitFailure? then x1 else if x2.ExitFailure? then x2
                               else ExitSuccess(Tuple([x1.value, x2.value])))
  {
    var rs := [x1, x2];
    if x1.ExitSuccess? {
      assert [] + [x1.value] == [x1.value];
      assert Join(rs) == JoinFrom(rs, 1, [x1.value]);
      if x2.ExitSuccess? {
        assert [x1.value] + [x2.value] == [x1.value, x2.value];
        assert JoinFrom(rs, 1, [x1.value]) == JoinFrom(rs, 2, [x1.value, x2.value]);
      }
    }
  }

  // ---------------------------------------------------------------------
  // loop
  // ---------------------------------------------------------------------

  // `loop` builds its iterations lazily: each one ends in a Suspend whose
  // factory builds the next.  Python bounds that chain only by its
  // recursion limit; here `bound` counts the Suspend steps a loop may take,
  // and the factory of the step past it raises RecursionError.

  /** The RecursionError a loop still running at its bound ends with. */
  function RecursionLimit(): PyException
  {
    PyException(RecursionError, "maximum recursion depth exceeded", NoneV, Nothing)
  }

  /** `[a, *rest]` for the list the rest of the loop collected. */
  function Prepend(a: Value, rest: Value): Value
  {
    if rest.List? then List([a] + rest.elems) else List([a])
  }

  /** `lambda rest: Succeed([a, *rest])`. */
  function PrependTo(a: Value): Value -> Effect
  {
    rest => Succeed(Prepend(a, rest))
  }

  /** `_run_collect(state)`. */
  function CollectFrom(p: Value -> bool, step: Value -> Value, body: Value -> Effect, x: Value, bound: nat): Effect
    decreases bound, 2
  {
    if !p(x) then Succeed(List([]))
    else FlatMap(body(x), CollectRest(p, step, body, step(x), bound))
  }

  /** `lambda a: FlatMap(Suspend(lambda: _run_collect(next_state)), ...)`. */
  function CollectRest(p: Value -> bool, step: Value -> Value, body: Value -> Effect, next: Value, bound: nat): Value -> Effect
    decreases bound, 1
  {
    a => FlatMap(CollectLater(p, step, body, next, bound), PrependTo(a))
  }

  /** `Suspend(lambda: _run_collect(state))`, cut off at the bound. */
  function CollectLater(p: Value -> bool, step: Value -> Value, body: Value -> Effect, x: Value, bound: nat): Effect
    decreases bound, 0
  {
    Suspend(w => (if bound == 0 then Throws(RecursionLimit()) else Returns(CollectFrom(p, step, body, x, bound - 1)), w))
  }

  /** `_run_discard(state)`. */
  function DiscardFrom(p: Value -> bool, step: Value -> Value, body: Value -> Effect, x: Value, bound: nat): Effect
    decreases bound, 2
  {
    if !p(x) then Succeed(NoneV)
    else FlatMap(body(x), DiscardRest(p, step, body, step(x), bound))
  }

  /** `lambda _: Suspend(lambda: _run_discard(next_state))`. */
  function DiscardRest(p: Value -> bool, step: Value -> Value, body: Value -> Effect, next: Value, bound: nat): Value -> Effect
    decreases bound, 1
  {
    _ => DiscardLater(p, step, body, next, bound)
  }

  /** `Suspend(lambda: _run_discard(state))`, cut off at the bound. */
  function DiscardLater(p: Value -> bool, step: Value -> Value, body: Value -> Effect, x: Value, bound: nat): Effect
    decreases bound, 0
  {
    Suspend(w => (if bound == 0 then Throws(RecursionLimit()) else Returns(DiscardFrom(p, step, body, x, bound - 1)), w))
  }

  /** `loop(initial, while_=p, step=step, body=body, discard=discard)`. */
  function Loop(initial: Value, p: Value -> bool, step: Value -> Value, body: Value -> Effect,
                discard: bool, bound: nat): Effect
  {
    if discard then DiscardLater(p, step, body, initial, bound)
    else CollectLater(p, step, body, initial, bound)
  }

  /**
   * One iteration of a collecting loop: the condition is checked first (a
   * false one ends the loop with [] and nothing run); otherwise the body
   * runs, and only when it succeeds does the rest of the loop run, from the
   * state the body left, its list getting the body's value in front.  A
   * failing body ends the whole loop with its own result.
   */
  lemma CollectIteration(s: Strategy, p: Value -> bool, step: Value -> Value, body: Value -> Effect,
                         x: Value, bound: nat, ctx: Context, st: State, fuel: nat)
    ensures var r := Eval(s, CollectLater(p, step, body, x, bound + 1), ctx, st, fuel + 3);
      (!p(x) ==> r == Step(Ok(ExitSuccess(List([]))), st)) &&
      (p(x) ==>
        var b := Eval(s, body(x), ctx, st, fuel + 2);
        (b.outcome.Ok? && b.outcome.value.ExitSuccess? ==>
          var rest := Eval(s, CollectLater(p, step, body, step(x), bound), ctx, b.state, fuel + 1);
          (rest.outcome.Ok? && rest.outcome.value.ExitSuccess? ==>
            r == Step(Ok(ExitSuccess(Prepend(b.outcome.value.value, rest.outcome.value.value))), rest.state)) &&
          (!(rest.outcome.Ok? && rest.outcome.value.ExitSuccess?) ==> r == rest)) &&
        (!(b.outcome.Ok? && b.outcome.value.ExitSuccess?) ==> r == b))
  {
    assert Eval(s, CollectLater(p, step, body, x, bound + 1), ctx, st, fuel + 3)
        == Eval(s, CollectFrom(p, step, body, x, bound), ctx, st, fuel + 2);
    if p(x) {
      var k := CollectRest(p, step, body, step(x), bound);
      FlatMapLaw(s, body(x), k, k, ctx, st, fuel + 2);
      var b := Eval(s, body(x), ctx, st, fuel + 2);
      if b.outcome.Ok? && b.outcome.value.ExitSuccess? {
        var a := b.outcome.value.value;
        FlatMapLaw(s, CollectLater(p, step, body, step(x), bound), PrependTo(a), PrependTo(a), ctx, b.state, fuel + 1);
      }
    }
  }

  /**
   * One iteration of a discarding loop: a false condition ends it with None
   * and nothing run; otherwise the body runs and, only when it succeeds,
   * the rest of the loop runs from the state the body left.
   */
  lemma DiscardIteration(s: Strategy, p: Value -> bool, step: Value -> Value, body: Value -> Effect,
                         x: Value, bound: nat, ctx: Context, st: State, fuel: nat)
    ensures var r := Eval(s, DiscardLater(p, step, body, x, bound + 1), ctx, st, fuel + 2);
      (!p(x) ==> r == Step(Ok(ExitSuccess(NoneV)), st)) &&
      (p(x) ==>
        var b := Eval(s, body(x), ctx, st, fuel + 1);
        (b.outcome.Ok? && b.outcome.value.ExitSuccess? ==>
          r == Eval(s, DiscardLater(p, step, body, step(x), bound), ctx, b.state, fuel)) &&
        (!(b.outcome.Ok? && b.outcome.value.ExitSuccess?) ==> r == b))
  {
    assert Eval(s, DiscardLater(p, step, body, x, bound + 1), ctx, st, fuel + 2)
        == Eval(s, DiscardFrom(p, step, body, x, bound), ctx, st, fuel + 1);
    if p(x) {
      var k := DiscardRest(p, step, body, step(x), bound);
      FlatMapLaw(s, body(x), k, k, ctx, st, fuel + 1);
    }
  }

  /**
   * The states a loop visits, in order, while the condition holds: None
   * when the condition still holds after `k` Suspend steps, so that the
   * bound cuts the loop off.
   */
  function Iterations(p: Value -> bool, step: Value -> Value, x: Value, k: nat): Option<seq<Value>>
    decreases k
  {
    if k == 0 then Nothing
    else if !p(x) then Some([])
    else
      match Iterations(p, step, step(x), k - 1)
      case Some(xs) => Some([x] + xs)
      case Nothing => Nothing
  }

  /** The value a body that only succeeds gives for a state. */
  function SucceedValue(e: Effect): Value
  {
    if e.Succeed? then e.value else NoneV
  }

  /** The body's value at each visited state, in order. */
  function BodyValues(body: Value -> Effect, xs: seq<Value>): (vs: seq<Value>)
    ensures |vs| == |xs| && forall j | 0 <= j < |xs| :: vs[j] == SucceedValue(body(xs[j]))
  {
    seq(|xs|, j requires 0 <= j < |xs| => SucceedValue(body(xs[j])))
  }

  /**
   * A collecting loop whose body only succeeds collects the body's value at
   * every state it visits, in order, and changes nothing; past its bound it
   * raises RecursionError.  Fuel of twice the bound, plus one, is enough.
   */
  lemma {:induction false} CollectsVisitedStates(s: Strategy, p: Value -> bool, step: Value -> Value,
                                                 body: Value -> Effect, x: Value, bound: nat,
                                                 ctx: Context, st: State, fuel: nat)
    requires forall y :: body(y).Succeed?
    requires fuel >= 2 * bound + 1
    ensures var r := Eval(s, CollectLater(p, step, body, x, bound), ctx, st, fuel);
      match Iterations(p, step, x, bound)
      case Some(xs) => r == Step(Ok(ExitSuccess(List(BodyValues(body, xs)))), st)
      case Nothing => r == Step(Raised(RecursionLimit()), st)
    decreases bound
  {
    if bound == 0 {
      assert Eval(s, CollectLater(p, step, body, x, bound), ctx, st, fuel) == Step(Raised(RecursionLimit()), st);
    } else {
      var b := bound - 1;
      CollectIteration(s, p, step, body, x, b, ctx, st, fuel - 3);
      if p(x) {
        assert body(x).Succeed?;
        var a := body(x).value;
        assert Eval(s, body(x), ctx, st, fuel - 1) == Step(Ok(ExitSuccess(a)), st);
        CollectsVisitedStates(s, p, step, body, step(x), b, ctx, st, fuel - 2);
        match Iterations(p, step, step(x), b)
        case Some(xs) =>
          assert BodyValues(body, [x] + xs) == [a] + BodyValues(body, xs);
        case Nothing =>
      }
    }
  }

  /** The list cell the discarding example appends each state to. */
  const Printed := "printed"

  function PrintedOf(w: World): seq<Value>
  {
    if Printed in w && w[Printed].List? then w[Printed].elems else []
  }

  /** `lambda s: sync(lambda: print(s))`, with the output kept in the world. */
  function Record(x: Value): Effect
  {
    Sync(w => (Returns(NoneV), w[Printed := List(PrintedOf(w) + [x])]))
  }

  /** Running Record(x) appends x to the printed cell and succeeds with None. */
  lemma RecordAppends(s: Strategy, x: Value, ctx: Context, st: State, fuel: nat)
    ensures var st1 := st.(world := st.world[Printed := List(PrintedOf(st.world) + [x])]);
      Eval(s, Record(x), ctx, st, fuel) == Step(Ok(ExitSuccess(NoneV)), st1) &&
      PrintedOf(st1.world) == PrintedOf(st.world) + [x]
  {
  }

  /** What a discarding, recording loop from x does, as Iterations predicts it. */
  ghost predicate DiscardsAsIterated(s: Strategy, p: Value -> bool, step: Value -> Value,
                                     x: Value, bound: nat, ctx: Context, st: State, fuel: nat)
  {
    var r := Eval(s, DiscardLater(p, step, Record, x, bound), ctx, st, fuel);
    match Iterations(p, step, x, bound)
    case Some(xs) =>
      r.outcome == Ok(ExitSuccess(NoneV)) && r.state.memo == st.memo &&
      PrintedOf(r.state.world) == PrintedOf(st.world) + xs
    case Nothing => r.outcome == Raised(RecursionLimit())
  }

  /** The inductive step: recording x, then the rest of the loop from step(x). */
  lemma DiscardRecordStep(s: Strategy, p: Value -> bool, step: Value -> Value,
                          x: Value, b: nat, ctx: Context, st: State, fuel: nat)
    requires p(x)
    requires DiscardsAsIterated(s, p, step, step(x), b, ctx,
                                st.(world := st.world[Printed := List(PrintedOf(st.world) + [x])]), fuel)
    ensures DiscardsAsIterated(s, p, step, x, b + 1, ctx, st, fuel + 2)
  {
    DiscardIteration(s, p, step, Record, x, b, ctx, st, fuel);
    RecordAppends(s, x, ctx, st, fuel + 1);
    match Iterations(p, step, step(x), b)
    case Some(xs) =>
      assert PrintedOf(st.world) + [x] + xs == PrintedOf(st.world) + ([x] + xs);
    case Nothing =>
  }

  /**
   * A discarding loop whose body records its state records every state it
   * visits, in order, and yields None; past its bound it raises
   * RecursionError.  Fuel of twice the bound is enough.
   */
  lemma {:induction false} DiscardRecordsVisitedStates(s: Strategy, p: Value -> bool, step: Value -> Value,
                                                       x: Value, bound: nat, ctx: Context, st: State, fuel: nat)
    requires fuel >= 2 * bound
    ensures var r := Eval(s, DiscardLater(p, step, Record, x, bound), ctx, st, fuel);
      match Iterations(p, step, x, bound)
      case Some(xs) =>
        r.outcome == Ok(ExitSuccess(NoneV)) && r.state.memo == st.memo &&
        PrintedOf(r.state.world) == PrintedOf(st.world) + xs
      case Nothing => r.outcome == Raised(RecursionLimit())
    decreases bound
  {
    if bound == 0 {
      assert Eval(s, DiscardLater(p, step, Record, x, bound), ctx, st, fuel) == Step(Raised(RecursionLimit()), st);
    } else if !p(x) {
      DiscardIteration(s, p, step, Record, x, bound - 1, ctx, st, fuel - 2);
    } else {
      var st1 := st.(world := st.world[Printed := List(PrintedOf(st.world) + [x])]);
      DiscardRecordsVisitedStates(s, p, step, step(x), bound - 1, ctx, st1, fuel - 2);
      DiscardRecordStep(s, p, step, x, bound - 1, ctx, st, fuel - 2);
      assert DiscardsAsIterated(s, p, step, x, bound, ctx, st, fuel);
    }
  }

  /** `lambda s: s <= limit` on integer states. */
  function AtMost(limit: int): Value -> bool
  {
    (v: Value) => v.Int? && v.i <= limit
  }

  /** `lambda s: s + 1` on integer states. */
  function Increment(v: Value): Value
  {
    if v.Int? then Int(v.i + 1) else v
  }

  /** `effect.succeed` used as a loop body. */
  function SucceedOf(v: Value): Effect
  {
    Succeed(v)
  }

  /** One visited state in front of the states visited from the next one. */
  lemma IterationsCons(p: Value -> bool, step: Value -> Value, x: Value, k: nat, xs: seq<Value>)
    requires p(x) && Iterations(p, step, step(x), k) == Some(xs)
    ensures Iterations(p, step, x, k + 1) == Some([x] + xs)
  {
  }

  /** The collecting example: from 1 while at most 5, the body's values are [1, 2, 3, 4, 5]. */
  lemma CollectExample(w: World)
    ensures RunSync(Loop(Int(1), AtMost(5), Increment, SucceedOf, false, 6), w, 13)
         == (Ok(List([Int(1), Int(2), Int(3), Int(4), Int(5)])), w)
  {
    var p := AtMost(5);
    assert Iterations(p, Increment, Int(6), 1) == Some([]);
    assert Increment(Int(5)) == Int(6) && [Int(5)] + [] == [Int(5)];
    IterationsCons(p, Increment, Int(5), 1, []);
    assert Increment(Int(4)) == Int(5) && [Int(4)] + [Int(5)] == [Int(4), Int(5)];
    IterationsCons(p, Increment, Int(4), 2, [Int(5)]);
    assert Increment(Int(3)) == Int(4) && [Int(3)] + [Int(4), Int(5)] == [Int(3), Int(4), Int(5)];
    IterationsCons(p, Increment, Int(3), 3, [Int(4), Int(5)]);
    assert Increment(Int(2)) == Int(3) && [Int(2)] + [Int(3), Int(4), Int(5)] == [Int(2), Int(3), Int(4), Int(5)];
    IterationsCons(p, Increment, Int(2), 4, [Int(3), Int(4), Int(5)]);
    assert Increment(Int(1)) == Int(2) && [Int(1)] + [Int(2), Int(3), Int(4), Int(5)] == [Int(1), Int(2), Int(3), Int(4), Int(5)];
    IterationsCons(p, Increment, Int(1), 5, [Int(2), Int(3), Int(4), Int(5)]);
    CollectsVisitedStates(Blocking, p, Increment, SucceedOf, Int(1), 6, Empty(), State(map[], w), 13);
    assert BodyValues(SucceedOf, [Int(1), Int(2), Int(3), Int(4), Int(5)])
        == [Int(1), Int(2), Int(3), Int(4), Int(5)];
  }

  /** The discarding example: from 1 while at most 3, the states 1, 2, 3 are printed and the value is None. */
  lemma DiscardExample(w: World)
    ensures var t := RunSync(Loop(Int(1), AtMost(3), Increment, Record, true, 4), w, 8);
      t.0 == Ok(NoneV) && PrintedOf(t.1) == PrintedOf(w) + [Int(1), Int(2), Int(3)]
  {
    var p := AtMost(3);
    assert Iterations(p, Increment, Int(4), 1) == Some([]);
    assert Increment(Int(3)) == Int(4) && [Int(3)] + [] == [Int(3)];
    IterationsCons(p, Increment, Int(3), 1, []);
    assert Increment(Int(2)) == Int(3) && [Int(2)] + [Int(3)] == [Int(2), Int(3)];
    IterationsCons(p, Increment, Int(2), 2, [Int(3)]);
    assert Increment(Int(1)) == Int(2) && [Int(1)] + [Int(2), Int(3)] == [Int(1), Int(2), Int(3)];
    IterationsCons(p, Increment, Int(1), 3, [Int(2), Int(3)]);
    DiscardRecordsVisitedStates(Blocking, p, Increment, Int(1), 4, Empty(), State(map[], w), 8);
  }
}
