// Layer sharing, as the memoization tests exercise it: a Config layer whose
// construction records each call in the world and returns a new instance,
// shared by a Logger layer and a Database layer that are then merged.  Within
// one run the shared layer is constructed once and both dependents see the
// same instance; `fresh` on both branches constructs it twice; and the memo
// table does not survive from one run to the next.

module LayerSharing {
  import opened Values
  import opened Exits
  import opened Contexts
  import opened Primitives
  import opened Runtime
  import opened RuntimeLaws
  import opened Layers

  /** The world cell counting constructions of Config. */
  const Calls: string := "calls"

  function Count(w: World): int
  {
    if Calls in w && w[Calls].Int? then w[Calls].i else 0
  }

  /** `make_config`: records the call and returns a new instance (numbered by the call). */
  function MakeConfig(w: World): (Call<Value>, World)
  {
    (Returns(Object(Count(w))), w[Calls := Int(Count(w) + 1)])
  }

  /** A service built from Config: `Logger(c.level)` or `Database(c.level)`. */
  function UsesConfig(tag: Tag): Effect
  {
    Map(Service("Config"), c => Tuple([Str(tag), c]))
  }

  /** What a dependent built from the given Config instance looks like. */
  function Built(tag: Tag, config: Value): Value
  {
    Tuple([Str(tag), config])
  }

  /** The ids of a dependent's own layers and of the merged layer. */
  datatype DiamondIds = DiamondIds(loggerBase: nat, logger: nat, dbBase: nat, db: nat, app: nat)

  function ConfigLayer(id: nat): Layer
  {
    MakeLayer(SyncConstruction("Config", MakeConfig), id)
  }

  /** `provide(config)(effect(tag, UsesConfig(tag)))`. */
  function Dependent(config: Layer, tag: Tag, baseId: nat, id: nat): Layer
  {
    MakeLayer(ProvideConstruction(config, MakeLayer(EffectConstruction(tag, UsesConfig(tag)), baseId)), id)
  }

  /** `merge(logger, db)`, both provided with the given Config layers. */
  function Diamond(loggerConfig: Layer, dbConfig: Layer, ids: DiamondIds): Layer
  {
    MakeLayer(MergeConstruction(Dependent(loggerConfig, "Logger", ids.loggerBase, ids.logger),
                                Dependent(dbConfig, "Database", ids.dbBase, ids.db)), ids.app)
  }

  /**
   * Building a dependent from a memo table that lacks its own ids: the Config
   * layer (built now or found in the memo) is provided to the dependent's
   * construction, which reads the Config instance from the context.
   */
  lemma DependentLaw(s: Strategy, config: Layer, tag: Tag, baseId: nat, id: nat, ctx: Context, st: State, fuel: nat)
    requires baseId != id && baseId !in st.memo && id !in st.memo
    requires var r := Eval(s, config.effect, ctx, st, fuel + 1);
      r.outcome.Ok? && r.outcome.value.ExitSuccess? && r.outcome.value.value.CtxV? &&
      "Config" in r.outcome.value.value.services && baseId !in r.state.memo && id !in r.state.memo
    ensures var r := Eval(s, config.effect, ctx, st, fuel + 1);
      var c := r.outcome.value.value.services["Config"];
      var v := CtxV(map[tag := Built(tag, c)]);
      Eval(s, Dependent(config, tag, baseId, id).effect, ctx, st, fuel + 1) ==
        Step(Ok(ExitSuccess(v)), r.state.(memo := r.state.memo[baseId := v][id := v]))
  {
    var r := Eval(s, config.effect, ctx, st, fuel + 1);
    var cfg := r.outcome.value.value;
    var c := cfg.services["Config"];
    var base := MakeLayer(EffectConstruction(tag, UsesConfig(tag)), baseId);
    ProvideLayerLaw(s, config, base, id, ctx, st, fuel);
    var inner := Merge(ctx, AsContext(cfg));
    assert Get(inner, "Config") == Returns(c);
    ServiceLaw(s, "Config", inner, r.state, fuel);
    MapLaw(s, Service("Config"), UsesConfig(tag).transform, inner, r.state, fuel);
    assert Eval(s, UsesConfig(tag), inner, r.state, fuel) == Step(Ok(ExitSuccess(Built(tag, c))), r.state);
    EffectLayerLaw(s, tag, UsesConfig(tag), baseId, inner, r.state, fuel);
  }

  /** The context Config's construction builds on the call that found the count at n. */
  function ConfigContext(n: int): Value
  {
    CtxV(map["Config" := Object(n)])
  }

  /** Constructing Config when its id is not yet in the memo: make_config runs once. */
  lemma ConfigBuild(s: Strategy, id: nat, ctx: Context, st: State, fuel: nat)
    requires id !in st.memo
    ensures var n := Count(st.world);
      Eval(s, ConfigLayer(id).effect, ctx, st, fuel) ==
        Step(Ok(ExitSuccess(ConfigContext(n))), State(st.memo[id := ConfigContext(n)], st.world[Calls := Int(n + 1)]))
  {
    SyncLayerLaw(s, "Config", MakeConfig, id, ctx, st, fuel);
  }

  /** Merging two single bindings of different tags. */
  lemma MergeSingletons(t1: Tag, v1: Value, t2: Tag, v2: Value)
    requires t1 != t2
    ensures Merge(map[t1 := v1], map[t2 := v2]) == map[t1 := v1, t2 := v2]
  {
  }

  /** Merging two layers once each is built: their contexts merged, stored under the merge's id. */
  lemma MergeBuilt(s: Strategy, l1: Layer, l2: Layer, id: nat, ctx: Context, st: State, fuel: nat,
                   c1: Context, c2: Context, st1: State, st2: State)
    requires id !in st.memo
    requires Eval(s, l1.effect, ctx, st, fuel + 1) == Step(Ok(ExitSuccess(CtxV(c1))), st1)
    requires Eval(s, l2.effect, ctx, st1, fuel) == Step(Ok(ExitSuccess(CtxV(c2))), st2)
    ensures var v := CtxV(Merge(c1, c2));
      Eval(s, MakeLayer(MergeConstruction(l1, l2), id).effect, ctx, st, fuel + 1) ==
        Step(Ok(ExitSuccess(v)), st2.(memo := st2.memo[id := v]))
  {
    MergeLayerLaw(s, l1, l2, id, ctx, st, fuel);
  }

  /** A run of the diamond, given what building each branch does. */
  lemma DiamondRun(s: Strategy, c1: Layer, c2: Layer, ids: DiamondIds, w: World, fuel: nat,
                   logger: Value, db: Value, st1: State, st2: State)
    requires Eval(s, Dependent(c1, "Logger", ids.loggerBase, ids.logger).effect, Empty(), State(map[], w), fuel + 2) ==
      Step(Ok(ExitSuccess(CtxV(map["Logger" := logger]))), st1)
    requires Eval(s, Dependent(c2, "Database", ids.dbBase, ids.db).effect, Empty(), st1, fuel + 1) ==
      Step(Ok(ExitSuccess(CtxV(map["Database" := db]))), st2)
    ensures var r := RunExit(s, Diamond(c1, c2, ids).effect, w, fuel + 2);
      r.0 == Ok(ExitSuccess(CtxV(map["Logger" := logger, "Database" := db]))) && r.1 == st2.world
  {
    MergeBuilt(s, Dependent(c1, "Logger", ids.loggerBase, ids.logger), Dependent(c2, "Database", ids.dbBase, ids.db),
               ids.app, Empty(), State(map[], w), fuel + 1, map["Logger" := logger], map["Database" := db], st1, st2);
    assert |"Logger"| != |"Database"|;
    MergeSingletons("Logger", logger, "Database", db);
  }

  /** A dependent whose Config is not yet built: building it constructs Config, once. */
  lemma DependentBuildsConfig(s: Strategy, configId: nat, tag: Tag, baseId: nat, id: nat, ctx: Context, st: State, fuel: nat)
    requires configId != baseId && configId != id && baseId != id
    requires configId !in st.memo && baseId !in st.memo && id !in st.memo
    ensures var n := Count(st.world);
      var v := CtxV(map[tag := Built(tag, Object(n))]);
      Eval(s, Dependent(ConfigLayer(configId), tag, baseId, id).effect, ctx, st, fuel + 1) ==
        Step(Ok(ExitSuccess(v)), State(st.memo[configId := ConfigContext(n)][baseId := v][id := v], st.world[Calls := Int(Count(st.world) + 1)]))
  {
    ConfigBuild(s, configId, ctx, st, fuel + 1);
    DependentLaw(s, ConfigLayer(configId), tag, baseId, id, ctx, st, fuel);
  }

  /** A dependent whose Config is already built in this run: it reuses that instance. */
  lemma DependentReusesConfig(s: Strategy, configId: nat, tag: Tag, baseId: nat, id: nat, ctx: Context, st: State, fuel: nat, m: int)
    requires baseId != id && baseId !in st.memo && id !in st.memo
    requires configId in st.memo && st.memo[configId] == ConfigContext(m)
    ensures var v := CtxV(map[tag := Built(tag, Object(m))]);
      Eval(s, Dependent(ConfigLayer(configId), tag, baseId, id).effect, ctx, st, fuel + 1) ==
        Step(Ok(ExitSuccess(v)), st.(memo := st.memo[baseId := v][id := v]))
  {
    MemoHit(s, ConfigLayer(configId).effect.effect, configId, ctx, st, fuel + 1);
    DependentLaw(s, ConfigLayer(configId), tag, baseId, id, ctx, st, fuel);
  }

  /**
   * The diamond of the memoization test, with ids drawn as the test draws
   * them from base on: Config, then for each branch the effect layer and the
   * provide layer, then the merge.
   */
  function SharedDiamond(base: nat): Layer
  {
    Diamond(ConfigLayer(base), ConfigLayer(base), DiamondIds(base + 1, base + 2, base + 3, base + 4, base + 5))
  }

  /**
   * The diamond: Config is constructed once per run (the call count goes up
   * by one) and Logger and Database are built from the same instance.
   */
  lemma SharedLayerBuiltOnce(s: Strategy, base: nat, w: World, fuel: nat)
    ensures var n := Count(w);
      var r := RunExit(s, SharedDiamond(base).effect, w, fuel + 2);
      r.0 == Ok(ExitSuccess(CtxV(map["Logger" := Built("Logger", Object(n)), "Database" := Built("Database", Object(n))]))) &&
      r.1 == w[Calls := Int(n + 1)]
  {
    SharedConfigBuiltOnce(s, base, DiamondIds(base + 1, base + 2, base + 3, base + 4, base + 5), w, fuel);
  }

  /** The diamond over one Config layer, for any ids the counter may have drawn. */
  lemma SharedConfigBuiltOnce(s: Strategy, k: nat, ids: DiamondIds, w: World, fuel: nat)
    requires k != ids.loggerBase && k != ids.logger && ids.loggerBase != ids.logger
    requires ids.dbBase !in {k, ids.loggerBase, ids.logger, ids.db} && ids.db !in {k, ids.loggerBase, ids.logger}
    ensures var n := Count(w);
      var r := RunExit(s, Diamond(ConfigLayer(k), ConfigLayer(k), ids).effect, w, fuel + 2);
      r.0 == Ok(ExitSuccess(CtxV(map["Logger" := Built("Logger", Object(n)), "Database" := Built("Database", Object(n))]))) &&
      r.1 == w[Calls := Int(n + 1)]
  {
    var n := Count(w);
    var vl := map["Logger" := Built("Logger", Object(n))];
    var st1 := State(map[k := ConfigContext(n)][ids.loggerBase := CtxV(vl)][ids.logger := CtxV(vl)], w[Calls := Int(n + 1)]);
    assert Eval(s, Dependent(ConfigLayer(k), "Logger", ids.loggerBase, ids.logger).effect, Empty(), State(map[], w), fuel + 2) ==
        Step(Ok(ExitSuccess(CtxV(vl))), st1) by {
      DependentBuildsConfig(s, k, "Logger", ids.loggerBase, ids.logger, Empty(), State(map[], w), fuel + 1);
    }

    // The second use of Config is a memo hit: make_config does not run again.
    var vd := map["Database" := Built("Database", Object(n))];
    var st2 := st1.(memo := st1.memo[ids.dbBase := CtxV(vd)][ids.db := CtxV(vd)]);
    assert Eval(s, Dependent(ConfigLayer(k), "Database", ids.dbBase, ids.db).effect, Empty(), st1, fuel + 1) ==
        Step(Ok(ExitSuccess(CtxV(vd))), st2) by {
      DependentReusesConfig(s, k, "Database", ids.dbBase, ids.db, Empty(), st1, fuel, n);
    }

    DiamondRun(s, ConfigLayer(k), ConfigLayer(k), ids, w, fuel, Built("Logger", Object(n)), Built("Database", Object(n)), st1, st2);
  }

  /** `fresh(config)` drawn with the given id: Config's construction under a new key. */
  function FreshConfig(base: nat, id: nat): Layer
  {
    MakeLayer(FreshConstruction(ConfigLayer(base)), id)
  }

  /** Taking the memo wrapper off Config and drawing a new id gives Config under that id. */
  lemma FreshConfigIsConfig(base: nat, id: nat)
    ensures FreshConfig(base, id) == ConfigLayer(id)
  {
  }

  /**
   * The diamond of the `fresh` test: each branch is provided with its own
   * `fresh` copy of Config, drawn between the effect layer and the provide
   * layer of that branch.
   */
  function FreshDiamond(base: nat): Layer
  {
    Diamond(FreshConfig(base, base + 2), FreshConfig(base, base + 5),
            DiamondIds(base + 1, base + 3, base + 4, base + 6, base + 7))
  }

  /**
   * `fresh` on both branches: Config is constructed twice in one run (the
   * call count goes up by two) and each dependent sees its own instance.
   */
  lemma FreshBuildsTwice(s: Strategy, base: nat, w: World, fuel: nat)
    ensures var n := Count(w);
      var r := RunExit(s, FreshDiamond(base).effect, w, fuel + 2);
      r.0 == Ok(ExitSuccess(CtxV(map["Logger" := Built("Logger", Object(n)), "Database" := Built("Database", Object(n + 1))]))) &&
      r.1 == w[Calls := Int(n + 2)]
  {
    FreshConfigIsConfig(base, base + 2);
    FreshConfigIsConfig(base, base + 5);
    SeparateConfigsBuildTwice(s, base + 2, base + 5, DiamondIds(base + 1, base + 3, base + 4, base + 6, base + 7), w, fuel);
  }

  /** The `fresh` diamond with its two copies of Config seen as Config under their own ids. */
  lemma SeparateConfigsBuildTwice(s: Strategy, k1: nat, k2: nat, ids: DiamondIds, w: World, fuel: nat)
    requires k1 != ids.loggerBase && k1 != ids.logger && ids.loggerBase != ids.logger
    requires k2 !in {k1, ids.loggerBase, ids.logger, ids.dbBase, ids.db}
    requires ids.dbBase !in {k1, ids.loggerBase, ids.logger, ids.db} && ids.db !in {k1, ids.loggerBase, ids.logger}
    ensures var n := Count(w);
      var r := RunExit(s, Diamond(ConfigLayer(k1), ConfigLayer(k2), ids).effect, w, fuel + 2);
      r.0 == Ok(ExitSuccess(CtxV(map["Logger" := Built("Logger", Object(n)), "Database" := Built("Database", Object(n + 1))]))) &&
      r.1 == w[Calls := Int(n + 2)]
  {
    var n := Count(w);
    var w1 := w[Calls := Int(n + 1)];
    var vl := map["Logger" := Built("Logger", Object(n))];
    var st1 := State(map[k1 := ConfigContext(n)][ids.loggerBase := CtxV(vl)][ids.logger := CtxV(vl)], w1);
    DependentBuildsConfig(s, k1, "Logger", ids.loggerBase, ids.logger, Empty(), State(map[], w), fuel + 1);

    // The second copy has a key of its own, so make_config runs again.
    var vd := map["Database" := Built("Database", Object(n + 1))];
    var st2 := State(st1.memo[k2 := ConfigContext(n + 1)][ids.dbBase := CtxV(vd)][ids.db := CtxV(vd)], w[Calls := Int(n + 2)]);
    assert Count(w1) == n + 1;
    assert w1[Calls := Int(n + 2)] == w[Calls := Int(n + 2)];
    DependentBuildsConfig(s, k2, "Database", ids.dbBase, ids.db, Empty(), st1, fuel);

    DiamondRun(s, ConfigLayer(k1), ConfigLayer(k2), ids, w, fuel, Built("Logger", Object(n)), Built("Database", Object(n + 1)), st1, st2);
  }

  /** A layer merged with itself: Config is constructed once and bound once. */
  lemma SelfMergeBuiltOnce(s: Strategy, base: nat, w: World, fuel: nat)
    ensures var n := Count(w);
      var config := ConfigLayer(base);
      RunExit(s, MakeLayer(MergeConstruction(config, config), base + 1).effect, w, fuel + 1) ==
        (Ok(ExitSuccess(ConfigContext(n))), w[Calls := Int(n + 1)])
  {
    var n := Count(w);
    var config := ConfigLayer(base);
    var st0 := State(map[], w);
    var st1 := State(map[base := ConfigContext(n)], w[Calls := Int(n + 1)]);
    ConfigBuild(s, base, Empty(), st0, fuel + 1);
    MemoHit(s, config.effect.effect, base, Empty(), st1, fuel);
    MergeBuilt(s, config, config, base + 1, Empty(), st0, fuel, map["Config" := Object(n)], map["Config" := Object(n)], st1, st1);
    assert Merge(map["Config" := Object(n)], map["Config" := Object(n)]) == map["Config" := Object(n)];
  }

  /**
   * The memo table does not outlive a run: running the same layer twice
   * constructs it twice, and the second run sees a new instance.
   */
  lemma MemoIsPerRun(s: Strategy, base: nat, w: World, fuel: nat)
    ensures var n := Count(w);
      var (o1, w1) := RunExit(s, ConfigLayer(base).effect, w, fuel);
      var (o2, w2) := RunExit(s, ConfigLayer(base).effect, w1, fuel);
      o1 == Ok(ExitSuccess(ConfigContext(n))) && o2 == Ok(ExitSuccess(ConfigContext(n + 1))) &&
      w2 == w[Calls := Int(n + 2)]
  {
    var n := Count(w);
    ConfigBuild(s, base, Empty(), State(map[], w), fuel);
    var w1 := w[Calls := Int(n + 1)];
    assert Count(w1) == n + 1;
    ConfigBuild(s, base, Empty(), State(map[], w1), fuel);
    assert w1[Calls := Int(n + 2)] == w[Calls := Int(n + 2)];
  }

  /** The shared diamond built in the test's order from the id counter. */
  method BuildSharedDiamond(ids: LayerIds) returns (app: Layer)
    modifies ids
    ensures app == SharedDiamond(old(ids.next))
    ensures ids.next == old(ids.next) + 6
  {
    var config := ids.Sync("Config", MakeConfig);
    var loggerBase := ids.Effect("Logger", UsesConfig("Logger"));
    var logger := ids.Provide(config, loggerBase);
    var dbBase := ids.Effect("Database", UsesConfig("Database"));
    var db := ids.Provide(config, dbBase);
    app := ids.Merge(logger, db);
  }

  /** The `fresh` diamond built in the test's order from the id counter. */
  method BuildFreshDiamond(ids: LayerIds) returns (app: Layer)
    modifies ids
    ensures app == FreshDiamond(old(ids.next))
    ensures ids.next == old(ids.next) + 8
  {
    var config := ids.Sync("Config", MakeConfig);
    var loggerBase := ids.Effect("Logger", UsesConfig("Logger"));
    var loggerConfig := ids.Fresh(config);
    var logger := ids.Provide(loggerConfig, loggerBase);
    var dbBase := ids.Effect("Database", UsesConfig("Database"));
    var dbConfig := ids.Fresh(config);
    var db := ids.Provide(dbConfig, dbBase);
    app := ids.Merge(logger, db);
  }
}
