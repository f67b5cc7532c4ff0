// Layers: blueprints whose effect builds a context of services.  A layer's
// effect is always a MemoizedEffect keyed by the layer's id, so within one
// run the interpreter builds each layer at most once.  The builders below are
// the effects the library hands to the Layer constructor; the ids come from a
// module-wide counter, modelled by the class `LayerIds`.

module Layers {
  import opened Values
  import opened Exits
  import opened Contexts
  import opened Primitives
  import opened Runtime
  import opened RuntimeLaws

  datatype Layer = Layer(effect: Effect, id: nat)

  /**
   * The Layer constructor with the id it drew: the effect is wrapped in a
   * MemoizedEffect keyed by that id, unless it already is one.
   */
  function MakeLayer(e: Effect, id: nat): (l: Layer)
    ensures l.id == id && l.effect.MemoizedEffect?
    ensures e.MemoizedEffect? ==> l.effect == e
    ensures !e.MemoizedEffect? ==> l.effect == MemoizedEffect(e, id)
  {
    if e.MemoizedEffect? then Layer(e, id) else Layer(MemoizedEffect(e, id), id)
  }

  /** The memo key of a layer's effect. */
  function Key(l: Layer): int
  {
    if l.effect.MemoizedEffect? then l.effect.layerId else l.id
  }

  /** Wrapping is done once: re-wrapping a layer's effect keeps its key, whatever id is drawn. */
  lemma WrapIdempotent(e: Effect, id1: nat, id2: nat)
    ensures MakeLayer(MakeLayer(e, id1).effect, id2).effect == MakeLayer(e, id1).effect
    ensures Key(MakeLayer(MakeLayer(e, id1).effect, id2)) == Key(MakeLayer(e, id1))
    ensures !e.MemoizedEffect? ==> Key(MakeLayer(e, id1)) == id1
  {
  }

  /** The context a construction produced; anything else contributes no binding. */
  function AsContext(v: Value): Context
  {
    if v.CtxV? then v.services else map[]
  }

  function Single(tag: Tag, impl: Value): Value
  {
    CtxV(Make([(tag, impl)]))
  }

  /** `layer.succeed(tag, impl)`. */
  function SucceedConstruction(tag: Tag, impl: Value): Effect
  {
    Succeed(Single(tag, impl))
  }

  /** `layer.merge(l1, l2)`: build l1, then l2, and merge the two contexts. */
  function MergeConstruction(l1: Layer, l2: Layer): Effect
  {
    FlatMap(l1.effect, c1 => Map(l2.effect, c2 => CtxV(Merge(AsContext(c1), AsContext(c2)))))
  }

  /** `layer.provide(outer)(inner)`: build outer, then inner under outer's context. */
  function ProvideConstruction(outer: Layer, inner: Layer): Effect
  {
    FlatMap(outer.effect, c => Provide(inner.effect, AsContext(c)))
  }

  /** `layer.tap(f)(l)`. */
  function TapConstruction(f: Value -> Effect, l: Layer): Effect
  {
    Tap(l.effect, f)
  }

  /** `layer.tap_error(f)(l)`. */
  function TapErrorConstruction(f: Value -> Effect, l: Layer): Effect
  {
    TapError(l.effect, f)
  }

  /** `layer.effect(tag, eff)`: the service is what eff succeeds with. */
  function EffectConstruction(tag: Tag, eff: Effect): Effect
  {
    Map(eff, impl => Single(tag, impl))
  }

  /** `layer.sync(tag, thunk)`: the service is what the thunk returns. */
  function SyncConstruction(tag: Tag, thunk: Thunk): Effect
  {
    Map(Sync(thunk), impl => Single(tag, impl))
  }

  /** `layer.fresh(l)`: l's construction with one MemoizedEffect wrapper taken off. */
  function FreshConstruction(l: Layer): Effect
  {
    if l.effect.MemoizedEffect? then l.effect.effect else l.effect
  }

  /** `layer.launch(l)`: build the layer and discard its context. */
  function Launch(l: Layer): Effect
  {
    Map(l.effect, _ => NoneV)
  }

  /** The module-wide id counter and the layer builders that draw from it. */
  class LayerIds {
    var next: nat

    /** The counter starts at zero. */
    constructor ()
      ensures next == 0
    {
      next := 0;
    }

    /** `Layer(effect)`: draws the next id. */
    method New(e: Effect) returns (l: Layer)
      modifies this
      ensures l == MakeLayer(e, old(next))
      ensures next == old(next) + 1
    {
      l := MakeLayer(e, next);
      next := next + 1;
    }

    method Succeed(tag: Tag, impl: Value) returns (l: Layer)
      modifies this
      ensures l == MakeLayer(SucceedConstruction(tag, impl), old(next))
      ensures next == old(next) + 1
    {
      l := New(SucceedConstruction(tag, impl));
    }

    method Merge(l1: Layer, l2: Layer) returns (l: Layer)
      modifies this
      ensures l == MakeLayer(MergeConstruction(l1, l2), old(next))
      ensures next == old(next) + 1
    {
      l := New(MergeConstruction(l1, l2));
    }

    method Provide(outer: Layer, inner: Layer) returns (l: Layer)
      modifies this
      ensures l == MakeLayer(ProvideConstruction(outer, inner), old(next))
      ensures next == old(next) + 1
    {
      l := New(ProvideConstruction(outer, inner));
    }

    method Tap(f: Value -> Effect, layer: Layer) returns (l: Layer)
      modifies this
      ensures l == MakeLayer(TapConstruction(f, layer), old(next))
      ensures next == old(next) + 1
    {
      l := New(TapConstruction(f, layer));
    }

    method TapError(f: Value -> Effect, layer: Layer) returns (l: Layer)
      modifies this
      ensures l == MakeLayer(TapErrorConstruction(f, layer), old(next))
      ensures next == old(next) + 1
    {
      l := New(TapErrorConstruction(f, layer));
    }

    method Effect(tag: Tag, eff: Primitives.Effect) returns (l: Layer)
      modifies this
      ensures l == MakeLayer(EffectConstruction(tag, eff), old(next))
      ensures next == old(next) + 1
    {
      l := New(EffectConstruction(tag, eff));
    }

    method Sync(tag: Tag, thunk: Thunk) returns (l: Layer)
      modifies this
      ensures l == MakeLayer(SyncConstruction(tag, thunk), old(next))
      ensures next == old(next) + 1
    {
      l := New(SyncConstruction(tag, thunk));
    }

    /**
     * `layer.fresh(l)`: a layer with a newly drawn key, so it shares no memo
     * entry with l (when l's key was drawn earlier).
     */
    method Fresh(layer: Layer) returns (l: Layer)
      modifies this
      ensures l == MakeLayer(FreshConstruction(layer), old(next))
      ensures next == old(next) + 1
      ensures !FreshConstruction(layer).MemoizedEffect? ==> Key(l) == old(next)
      ensures !FreshConstruction(layer).MemoizedEffect? && Key(layer) < old(next) ==> Key(l) != Key(layer)
    {
      l := New(FreshConstruction(layer));
    }
  }

  // ---------------------------------------------------------------------
  // What running the builders does.  A layer whose key is not yet in the
  // memo table runs its construction and stores the context it built.

  /** The result of a memoized construction, given the construction's own step. */
  function Stored(r: Step, key: int): Step
  {
    match r.outcome
    case Ok(ExitSuccess(v)) => Step(r.outcome, r.state.(memo := r.state.memo[key := v]))
    case _ => r
  }

  /** `layer.succeed`: the context binding exactly that tag, built without running anything. */
  lemma SucceedLayerLaw(s: Strategy, tag: Tag, impl: Value, id: nat, ctx: Context, st: State, fuel: nat)
    requires id !in st.memo
    ensures var v := Eval(s, MakeLayer(SucceedConstruction(tag, impl), id).effect, ctx, st, fuel);
      v == Step(Ok(ExitSuccess(CtxV(map[tag := impl]))), st.(memo := st.memo[id := CtxV(map[tag := impl])]))
  {
    MemoMiss(s, SucceedConstruction(tag, impl), id, ctx, st, fuel);
    assert Make([(tag, impl)]) == map[tag := impl] by {
      assert [(tag, impl)][..0] == [];
    }
  }

  /** `layer.sync`: the thunk runs once; what it returns is bound to the tag, what it raises escapes. */
  lemma SyncLayerLaw(s: Strategy, tag: Tag, thunk: Thunk, id: nat, ctx: Context, st: State, fuel: nat)
    requires id !in st.memo
    ensures var (call, w) := thunk(st.world);
      var r := Eval(s, MakeLayer(SyncConstruction(tag, thunk), id).effect, ctx, st, fuel);
      match call
      case Returns(impl) =>
        r == Step(Ok(ExitSuccess(CtxV(map[tag := impl]))), State(st.memo[id := CtxV(map[tag := impl])], w))
      case Throws(x) => r == Step(Raised(x), State(st.memo, w))
  {
    var (call, w) := thunk(st.world);
    assert Eval(s, Sync(thunk), ctx, st, fuel) == CallThunk(thunk, false, st);
    MemoMiss(s, SyncConstruction(tag, thunk), id, ctx, st, fuel);
    if call.Returns? {
      assert Make([(tag, call.value)]) == map[tag := call.value] by {
        assert [(tag, call.value)][..0] == [];
      }
    }
  }

  /** `layer.effect`: eff runs once; its success is bound to the tag, its failure is the layer's. */
  lemma EffectLayerLaw(s: Strategy, tag: Tag, eff: Effect, id: nat, ctx: Context, st: State, fuel: nat)
    requires id !in st.memo
    ensures var r := Eval(s, eff, ctx, st, fuel);
      var l := Eval(s, MakeLayer(EffectConstruction(tag, eff), id).effect, ctx, st, fuel);
      match r.outcome
      case Ok(ExitSuccess(impl)) =>
        l == Step(Ok(ExitSuccess(CtxV(map[tag := impl]))), r.state.(memo := r.state.memo[id := CtxV(map[tag := impl])]))
      case _ => l == r
  {
    var r := Eval(s, eff, ctx, st, fuel);
    MemoMiss(s, EffectConstruction(tag, eff), id, ctx, st, fuel);
    MapLaw(s, eff, EffectConstruction(tag, eff).transform, ctx, st, fuel);
    if r.outcome.Ok? && r.outcome.value.ExitSuccess? {
      var impl := r.outcome.value.value;
      assert Make([(tag, impl)]) == map[tag := impl] by {
        assert [(tag, impl)][..0] == [];
      }
    }
  }

  /**
   * `layer.merge(l1, l2)`: l1 is built first; if it fails, l2 is not built.
   * Otherwise l2 is built and the contexts are merged with l2 winning.
   */
  lemma MergeLayerLaw(s: Strategy, l1: Layer, l2: Layer, id: nat, ctx: Context, st: State, fuel: nat)
    requires id !in st.memo
    ensures var r1 := Eval(s, l1.effect, ctx, st, fuel + 1);
      var m := Eval(s, MakeLayer(MergeConstruction(l1, l2), id).effect, ctx, st, fuel + 1);
      match r1.outcome
      case Ok(ExitSuccess(c1)) =>
        var r2 := Eval(s, l2.effect, ctx, r1.state, fuel);
        (match r2.outcome
         case Ok(ExitSuccess(c2)) =>
           m == Stored(Step(Ok(ExitSuccess(CtxV(Merge(AsContext(c1), AsContext(c2))))), r2.state), id)
         case _ => m == r2)
      case _ => m == r1
  {
    MemoMiss(s, MergeConstruction(l1, l2), id, ctx, st, fuel + 1);
    var k := MergeConstruction(l1, l2).f;
    FlatMapLaw(s, l1.effect, k, k, ctx, st, fuel + 1);
    var r1 := Eval(s, l1.effect, ctx, st, fuel + 1);
    if r1.outcome.Ok? && r1.outcome.value.ExitSuccess? {
      MapLaw(s, l2.effect, k(r1.outcome.value.value).transform, ctx, r1.state, fuel);
    }
  }

  /** `layer.provide(outer)(inner)`: outer is built first, then inner under outer's context. */
  lemma ProvideLayerLaw(s: Strategy, outer: Layer, inner: Layer, id: nat, ctx: Context, st: State, fuel: nat)
    requires id !in st.memo
    ensures var r1 := Eval(s, outer.effect, ctx, st, fuel + 1);
      var p := Eval(s, MakeLayer(ProvideConstruction(outer, inner), id).effect, ctx, st, fuel + 1);
      match r1.outcome
      case Ok(ExitSuccess(c)) =>
        p == Stored(Eval(s, inner.effect, Merge(ctx, AsContext(c)), r1.state, fuel), id)
      case _ => p == r1
  {
    MemoMiss(s, ProvideConstruction(outer, inner), id, ctx, st, fuel + 1);
    var k := ProvideConstruction(outer, inner).f;
    FlatMapLaw(s, outer.effect, k, k, ctx, st, fuel + 1);
    var r1 := Eval(s, outer.effect, ctx, st, fuel + 1);
    if r1.outcome.Ok? && r1.outcome.value.ExitSuccess? {
      ProvideLaw(s, inner.effect, AsContext(r1.outcome.value.value), ctx, r1.state, fuel);
    }
  }

  /** `layer.launch`: None once the layer is built; a construction failure is propagated. */
  lemma LaunchLaw(s: Strategy, l: Layer, ctx: Context, st: State, fuel: nat)
    ensures var r := Eval(s, l.effect, ctx, st, fuel);
      var x := Eval(s, Launch(l), ctx, st, fuel);
      match r.outcome
      case Ok(ExitSuccess(_)) => x == Step(Ok(ExitSuccess(NoneV)), r.state)
      case _ => x == r
  {
  }

  /**
   * `layer.tap(f)`: f runs on the built context only when construction
   * succeeds; the layer keeps that context, and a failing f is raised.
   */
  lemma TapLayerLaw(s: Strategy, f: Value -> Effect, l: Layer, id: nat, ctx: Context, st: State, fuel: nat)
    requires id !in st.memo
    ensures var r := Eval(s, l.effect, ctx, st, fuel + 1);
      var t := Eval(s, MakeLayer(TapConstruction(f, l), id).effect, ctx, st, fuel + 1);
      match r.outcome
      case Ok(ExitSuccess(c)) =>
        var body := Eval(s, f(c), ctx, r.state, fuel);
        t == Stored(Step(TapResult(c, body.outcome), body.state), id)
      case _ => t == r
  {
    MemoMiss(s, TapConstruction(f, l), id, ctx, st, fuel + 1);
    TapLaw(s, l.effect, f, f, ctx, st, fuel + 1);
  }

  /**
   * `layer.tap_error(f)`: f runs on the construction error only; the layer
   * fails with the original error whatever f does.
   */
  lemma TapErrorLayerLaw(s: Strategy, f: Value -> Effect, l: Layer, id: nat, ctx: Context, st: State, fuel: nat)
    requires id !in st.memo
    ensures var r := Eval(s, l.effect, ctx, st, fuel + 1);
      var t := Eval(s, MakeLayer(TapErrorConstruction(f, l), id).effect, ctx, st, fuel + 1);
      match r.outcome
      case Ok(ExitFailure(err)) =>
        var body := Eval(s, f(err), ctx, r.state, fuel);
        t == (if body.outcome.OutOfFuel? then body else Step(Ok(ExitFailure(err)), body.state))
      case Ok(ExitSuccess(c)) => t == Stored(r, id)
      case _ => t == r
  {
    MemoMiss(s, TapErrorConstruction(f, l), id, ctx, st, fuel + 1);
    TapErrorLaw(s, l.effect, f, f, ctx, st, fuel + 1);
  }

  /**
   * Built once per run: once a layer's construction has succeeded, every
   * later use of it in the same run (any state whose memo extends the one
   * after the build) yields the same instance and changes nothing; in
   * particular no thunk of the construction runs again.
   */
  lemma BuiltOncePerRun(s: Strategy, l: Layer, ctx: Context, st: State, fuel: nat,
                        s2: Strategy, ctx2: Context, st2: State, fuel2: nat)
    requires l.effect.MemoizedEffect?
    requires Eval(s, l.effect, ctx, st, fuel).outcome.Ok?
    requires Eval(s, l.effect, ctx, st, fuel).outcome.value.ExitSuccess?
    requires Extends(st2.memo, Eval(s, l.effect, ctx, st, fuel).state.memo)
    ensures Eval(s2, l.effect, ctx2, st2, fuel2) ==
      Step(Ok(ExitSuccess(Eval(s, l.effect, ctx, st, fuel).outcome.value.value)), st2)
  {
    var key := l.effect.layerId;
    var r := Eval(s, l.effect, ctx, st, fuel);
    assert key in r.state.memo && r.state.memo[key] == r.outcome.value.value;
    MemoHit(s2, l.effect.effect, key, ctx2, st2, fuel2);
  }

  /**
   * `fresh` defeats sharing: a fresh layer whose key is not yet in the memo
   * runs the original construction again even when the original layer has
   * already been built in this run.
   */
  lemma FreshRebuilds(s: Strategy, l: Layer, id: nat, ctx: Context, st: State, fuel: nat)
    requires l.effect.MemoizedEffect? && !l.effect.effect.MemoizedEffect?
    requires id !in st.memo
    ensures Eval(s, MakeLayer(FreshConstruction(l), id).effect, ctx, st, fuel) ==
      Stored(Eval(s, l.effect.effect, ctx, st, fuel), id)
  {
    MemoMiss(s, l.effect.effect, id, ctx, st, fuel);
  }
}
