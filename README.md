# pyfect, modelled in Dafny

pyfect is a small effect system for Python. A program is an `Effect`: an
immutable tree of nodes (`Succeed`, `Fail`, `Sync`, `Suspend`, `Tap`,
`FlatMap`, `Absorb`, `Service`, `Provide`, `MemoizedEffect`, `ZipPar`, ...)
built by constructors, combinators, control-flow helpers, error handlers and
layers. Nothing happens until an entry point (`run_sync`, `run_sync_exit`,
`run_async`, `run_async_exit`) interprets the tree. The interpreter threads
a service context, which `Provide` extends, and a per-run memo table that
builds every layer at most once. Besides it sit the `Option` and `Either`
data types, `Exit` (success or failure of a run) and `pipe`.

This project models that core:

- `Options`, `Eithers`, `Exits`, `Pipe`, `Contexts`, `Values` hold the data
  types and their functions. `Values` is the universe of Python values the
  effects carry, including exceptions, whose class decides what
  `except Exception` catches.
- `Primitives` is the effect node type. User thunks are functions from a
  `World` (a map of named cells, standing for the program's mutable state)
  to a result and a new `World`. So "called once per run" and "not called
  at all" can be stated as facts about the world.
- `Runtime` is the interpreter `Eval`. It is one function covering both
  fiber runners. A `Strategy` picks `_run_sync_fiber` (Blocking) or the
  sequential reading of `_run_async_fiber` (Cooperative). An `Outcome` is a
  returned exit, a raised exception, or `OutOfFuel` when the fuel bound
  (below) is exhausted.
- `RuntimeLaws` proves one law per node, plus memo monotonicity and fuel
  monotonicity.
- `Fibers` is the imperative runner. Class `Fiber` updates its memo table
  and world in place and runs ZipPar with loops. Every method is proved to
  compute exactly what `Eval` specifies.
- `Layers` and `LayerSharing` model layers: ids drawn from a counter class,
  the memo wrapping, each layer builder, and the memoisation scenarios from
  the layer tests.
- `Constructors`, `Combinators`, `Control`, `Errors` and `Interop` model the
  effect builders, each proved against `Eval`.
- `Legacy` is the older stand-alone interpreter in `effect.py`.

## Model

| member | source | states |
|---|---|---|
| Options.GuardsComplementary | src/pyfect/option.py:153-176 | `is_some` holds exactly when `is_nothing` does not |
| Options.LiftPredicate | src/pyfect/option.py:131-145 | the result is Some iff the predicate holds, and then it holds the argument itself |
| Options.Match | src/pyfect/option.py:252-264 | exactly one handler is applied: on_some to the value of a Some, on_nothing otherwise |
| Options.Map | src/pyfect/option.py:286-289 | Some is kept Some with f applied to its value; Nothing stays Nothing |
| Options.FlatMap | src/pyfect/option.py:315-318 | Nothing gives Nothing (f unused); Some(v) gives exactly f(v) |
| Options.Filter | src/pyfect/option.py:340-343 | the result is Some iff the input is Some and the predicate holds of its value, and then it is the input unchanged |
| Options.FilterIsLiftPredicate | src/pyfect/option.py:340-343 | filtering Some(v) agrees with `lift_predicate(p)(v)` |
| Options.GetOrElse | src/pyfect/option.py:406-409 | the value of a Some; the default thunk's result only for Nothing |
| Options.GetOrRaise | src/pyfect/option.py:439-445 | returns the value exactly for a Some; for Nothing it raises ValueError with the source's message |
| Options.OrElse | src/pyfect/option.py:470-473 | a Some is returned unchanged; the alternative thunk's result only for Nothing |
| Options.ZipWith | src/pyfect/option.py:529-533 | Some iff both inputs are Some, and then it holds f of the two values |
| Options.MapComposes | src/pyfect/option.py:286-289 | two successive maps equal one map of the composition |
| Options.FirstSomeOf | src/pyfect/option.py:548-551 | Nothing iff every option is Nothing; otherwise the first Some in order |
| Options.All | src/pyfect/option.py:588-593 | Some iff every element is Some, and then holds all their values in order; empty input gives Some([]) |
| Options.AllItems | src/pyfect/option.py:578-585 | the dict form: Some iff every entry is Some, with the keys kept in order beside their values |
| Values.FromOptional | src/pyfect/option.py:106-128 | None gives Nothing; any other value v gives Some(v) |
| Values.GetOrNone | src/pyfect/option.py:368-389 | the value of a Some; None for Nothing |
| Values.GetOrNoneFromOptional | src/pyfect/option.py:106-128 | `get_or_none(from_optional(x)) == x` for every x |
| Values.FromOptionalGetOrNone | src/pyfect/option.py:368-389 | `from_optional(get_or_none(o)) == o` holds exactly when o is not Some(None) |
| Values.MissingService | src/pyfect/context.py:13-20 | the MissingServiceError carries the missing tag |
| Eithers.GuardsComplementary | src/pyfect/either.py:84-107 | `is_right` holds iff `is_left` does not |
| Eithers.Match | src/pyfect/either.py:203-205 | exactly one handler is called: on_right for Right, on_left for Left |
| Eithers.Map | src/pyfect/either.py:226-229 | a Right is transformed; a Left is returned unchanged |
| Eithers.MapLeft | src/pyfect/either.py:247-250 | a Left is transformed; a Right is returned unchanged |
| Eithers.MapBoth | src/pyfect/either.py:273-276 | the variant is kept, and exactly the matching function is applied |
| Eithers.MapBothIsMapThenMapLeft | src/pyfect/either.py:255-278 | `map_both` equals `map` followed by `map_left` |
| Eithers.FlatMap | src/pyfect/either.py:307-310 | Right(v) gives f(v); a Left passes through |
| Eithers.ZipWith | src/pyfect/either.py:373-377 | Right(f(a, b)) iff both are Right; otherwise the first Left |
| Eithers.All | src/pyfect/either.py:427-432 | Right of every value in order iff all are Right; otherwise the first Left by position; empty gives Right([]) |
| Eithers.AllItems | src/pyfect/either.py:417-424 | the dict form: keys kept in order, or the first Left |
| Pipe.Pipe | src/pyfect/pipe.py:243-269 | the loop's result is the functions applied to the value from left to right |
| Pipe.PipeNoFunctions | src/pyfect/pipe.py:266-269 | `pipe(v)` is v |
| Pipe.PipeOneFunction | src/pyfect/pipe.py:266-269 | `pipe(v, f)` is f(v) |
| Pipe.PipeAppend | src/pyfect/pipe.py:266-269 | piping through fs ++ gs is piping through fs, then through gs |
| Pipe.PipeLast | src/pyfect/pipe.py:266-269 | the last function is applied to the result of all the earlier ones |
| Pipe.ApplyAll | src/pyfect/pipe.py:266-269 | no contract of its own: the left fold of the functions over the value; stated by Pipe.Pipe, Pipe.PipeAppend and Pipe.PipeLast |
| Exits.Succeed | src/pyfect/exit.py:45-55 | the success variant carrying exactly the value |
| Exits.Fail | src/pyfect/exit.py:58-68 | the failure variant carrying exactly the error |
| Exits.ExitVariants | src/pyfect/exit.py:22-37 | every exit is exactly one variant and is rebuilt by its constructor |
| Contexts.Get | src/pyfect/context.py:129-134 | returns the bound instance iff the tag is bound; otherwise raises MissingServiceError for that tag |
| Contexts.Empty | src/pyfect/context.py:40-42 | binds no tag |
| Contexts.MakeDomain | src/pyfect/context.py:99-101 | `make` binds exactly the tags some pair names |
| Contexts.MakeLastWins | src/pyfect/context.py:99-101 | `get(make(pairs), t)` is the instance of the last pair naming t |
| Contexts.MakeMissing | src/pyfect/context.py:99-101 | a tag no pair names is missing from `make(pairs)` |
| Contexts.Make | src/pyfect/context.py:99-101 | no contract of its own: later pairs override earlier ones; stated by Contexts.MakeDomain, Contexts.MakeLastWins and Contexts.MakeMissing |
| Contexts.Add | src/pyfect/context.py:109-126 | binds the tag to the instance and keeps every other binding; the old context is a separate value and unchanged |
| Contexts.Merge | tests/layer/test_layer_merge.py:68-84 | the union of both contexts, the second one's binding winning on a shared tag |
| Contexts.MergeEmpty | src/pyfect/runtime.py:131-132 | the empty context is a unit of merge on both sides |
| Contexts.MergeAssociative | src/pyfect/runtime.py:131-132 | merge is associative, so nested Provide nodes compose |
| Runtime.Raisable | src/pyfect/runtime.py:56-64 | an exception error is raised as itself; any other error as a RuntimeError carrying it |
| Runtime.Unwrap | src/pyfect/runtime.py:56-64 | returns exactly for a success, with its value; raises `Raisable(error)` for a failure |
| Runtime.WithCause | src/pyfect/runtime.py:105-109 | when both errors are exceptions the new one's cause becomes the old one; otherwise the new error is unchanged |
| Runtime.Settle | src/pyfect/runtime.py:258-275 | how an entry point turns a run's exit into a value or a raise |
| Runtime.CallThunk | src/pyfect/runtime.py:78-79 | no contract of its own: the thunk is called once on the world; for TrySync (lines 124-128) an Exception it raises becomes a failure and a BaseException escapes; stated by Constructors.SyncRunsThunkOnRun and Constructors.TrySyncCatchesWhatSyncRaises |
| Runtime.TapResult | src/pyfect/runtime.py:82-87 | no contract of its own: after a successful body the original value is the result, and a failing body is raised; stated by RuntimeLaws.TapLaw and Combinators.TapWithKeepsValue |
| Runtime.Eval | src/pyfect/runtime.py:72-250 | no contract of its own: the sync fiber (Blocking) and the async fiber (Cooperative), one case per node; each case is stated by a RuntimeLaws law (MapLaw, FlatMapLaw, TapLaw, TapErrorLaw, ProvideLaw, ServiceLaw, MemoHit, MemoMiss, ...), and the memo only grows (RuntimeLaws.MemoMonotone) |
| Runtime.ZipFrom | src/pyfect/runtime.py:144-152 | no contract of its own: the sync loop stops at the first failure or raise; the async gather (lines 237-247) runs every member even after a raise, then raises the first exception or joins; stated by Control.PairZip and Control.ZipParIsSequentialWhenBlocking |
| Runtime.Join | src/pyfect/runtime.py:241-247 | no contract of its own: the tuple of all values, or the first failure by position; stated by RuntimeLaws.JoinSpec and Control.JoinPair |
| Runtime.RunSyncExit | src/pyfect/runtime.py:304-324 | no contract of its own: the Blocking fiber from an empty context and memo; stated by Fibers.RunExit and RuntimeLaws.RunSyncSettlesExit |
| Runtime.RunAsyncExit | src/pyfect/runtime.py:327-345 | no contract of its own: the Cooperative fiber from an empty context and memo; stated by Fibers.RunExit |
| Runtime.RunSync | src/pyfect/runtime.py:258-275 | no contract of its own: the sync exit settled by `_unwrap`; stated by RuntimeLaws.RunSyncSettlesExit, RuntimeLaws.RunSyncOfFail and RuntimeLaws.MissingServiceEscapes |
| Runtime.RunAsync | src/pyfect/runtime.py:278-301 | no contract of its own: the async exit settled by `_unwrap`; stated by Fibers.RunValue |
| RuntimeLaws.ExtendsTransitive | src/pyfect/runtime.py:133-140 | memo extension composes |
| RuntimeLaws.MemoMonotone | src/pyfect/runtime.py:133-140 | a run never removes or changes an entry of the memo table; it only adds successes |
| RuntimeLaws.FuelMono | src/pyfect/runtime.py:72-155 | a run that finishes within some fuel gives the same result with any more fuel |
| RuntimeLaws.AbsorbNeverFails | src/pyfect/runtime.py:110-114 | Absorb never fails: success v gives Right(v), failure e gives Left(e), in the same state |
| RuntimeLaws.IgnoreAlwaysNone | src/pyfect/runtime.py:98-100 | Ignore succeeds with None once its effect has run to an exit |
| RuntimeLaws.MapLaw | src/pyfect/runtime.py:88-92 | Map applies f to a success and passes a failure through without calling f |
| RuntimeLaws.FlatMapLaw | src/pyfect/runtime.py:93-97 | FlatMap continues with f(v) from the state v's run left; a failure passes through and f is not called |
| RuntimeLaws.MapErrorLaw | src/pyfect/runtime.py:101-109 | a success is untouched; a failure becomes f(error), with the cause chained between exceptions |
| RuntimeLaws.TapLaw | src/pyfect/runtime.py:82-87 | Tap keeps the original value once its body succeeds; a failing body is raised out of the fiber |
| RuntimeLaws.TapErrorLaw | src/pyfect/runtime.py:115-121 | TapError keeps the original failure whatever its body does |
| RuntimeLaws.ProvideLaw | src/pyfect/runtime.py:131-132 | Provide runs its effect under merge(ambient, new) |
| RuntimeLaws.InnermostProvideWins | src/pyfect/runtime.py:131-132 | of nested Provide nodes, the innermost binding of a tag wins |
| RuntimeLaws.ServiceLaw | src/pyfect/runtime.py:129-130 | Service succeeds with the bound instance, or raises MissingServiceError out of the fiber |
| RuntimeLaws.MemoHit | src/pyfect/runtime.py:134-135 | a memo hit returns the stored value and runs nothing |
| RuntimeLaws.MemoMiss | src/pyfect/runtime.py:136-140 | a memo miss runs the effect; only a success is stored, under the layer id |
| RuntimeLaws.SleepLaw | src/pyfect/runtime.py:141-143 | Sleep succeeds with None and changes nothing |
| RuntimeLaws.BlockingRefusesAsync | src/pyfect/runtime.py:153-155 | the sync fiber raises "Cannot run Async/TryAsync synchronously"; the async fiber runs them as Sync/TrySync |
| RuntimeLaws.JoinFromSpec | src/pyfect/runtime.py:241-247 | the join scan from a position: the first failure after it, or the tuple of all values |
| RuntimeLaws.JoinSpec | src/pyfect/runtime.py:241-247 | the join succeeds iff every exit succeeds, with the values in order; otherwise it is the first failure by position |
| RuntimeLaws.RunSyncSettlesExit | src/pyfect/runtime.py:258-324 | `run_sync` is `run_sync_exit` with a failure raised as `_unwrap` raises it |
| RuntimeLaws.MissingServiceEscapes | src/pyfect/runtime.py:324 | every entry point starts from an empty context, so a Service lookup raises even from `run_sync_exit` |
| RuntimeLaws.RunSyncOfFail | src/pyfect/runtime.py:56-64 | `run_sync(fail(e))` raises `Raisable(e)`; `run_sync_exit` returns the failure |
| Fibers.JoinResults | src/pyfect/runtime.py:241-247 | the loop computes the join specification |
| Fibers.Fiber.constructor | src/pyfect/runtime.py:275 | a fiber starts with an empty memo table |
| Fibers.Fiber.CallThunk | src/pyfect/runtime.py:124-128 | calling a thunk updates the world in place as the specification says, catching `Exception` only for the Try nodes |
| Fibers.Fiber.Run | src/pyfect/runtime.py:72-155 | the outcome and the in-place memo and world equal what `Eval` specifies |
| Fibers.Fiber.RunLeaf | src/pyfect/runtime.py:76-81 | leaf nodes, as `Eval` specifies |
| Fibers.Fiber.RunSequenced | src/pyfect/runtime.py:82-97 | Suspend, Tap, TapError, FlatMap and Map, as `Eval` specifies |
| Fibers.Fiber.RunWrapped | src/pyfect/runtime.py:98-152 | Ignore, MapError, Absorb, Provide, MemoizedEffect and ZipPar, as `Eval` specifies |
| Fibers.Fiber.RunSuspend | src/pyfect/runtime.py:122-123 | the factory is called, then what it built is run |
| Fibers.Fiber.RunTap | src/pyfect/runtime.py:82-87 | Tap, as `Eval` specifies |
| Fibers.Fiber.RunTapError | src/pyfect/runtime.py:115-121 | TapError, as `Eval` specifies |
| Fibers.Fiber.RunMap | src/pyfect/runtime.py:88-92 | Map, as `Eval` specifies |
| Fibers.Fiber.RunIgnore | src/pyfect/runtime.py:98-100 | Ignore, as `Eval` specifies |
| Fibers.Fiber.RunMapError | src/pyfect/runtime.py:101-109 | MapError, as `Eval` specifies |
| Fibers.Fiber.RunAbsorb | src/pyfect/runtime.py:110-114 | Absorb, as `Eval` specifies |
| Fibers.Fiber.RunFlatMap | src/pyfect/runtime.py:93-97 | FlatMap, as `Eval` specifies |
| Fibers.Fiber.RunMemoized | src/pyfect/runtime.py:133-140 | a successful miss is stored in the memo table in place, as `Eval` specifies |
| Fibers.Fiber.RunZip | src/pyfect/runtime.py:144-152 | the sync loop (stop at the first failure or raise) and the async gather (every member runs, then the first exception is raised or the exits joined) compute `ZipFrom` |
| Fibers.RunExit | src/pyfect/runtime.py:304-345 | a fresh fiber with an empty context computes the exit entry points |
| Fibers.RunValue | src/pyfect/runtime.py:258-301 | the value entry points: `run_sync` for Blocking, `run_async` for Cooperative |
| Layers.MakeLayer | src/pyfect/layer.py:40-44 | the layer gets the drawn id, and its effect is wrapped in MemoizedEffect keyed by it unless it already is one |
| Layers.WrapIdempotent | src/pyfect/layer.py:42-44 | wrapping twice leaves the first wrapper and its key in place, whatever id is drawn |
| Layers.LayerIds.constructor | src/pyfect/layer.py:27 | the counter starts at zero |
| Layers.LayerIds.New | src/pyfect/layer.py:40-44 | a Layer draws the next id and the counter advances by one |
| Layers.LayerIds.Succeed | src/pyfect/layer.py:64-81 | `succeed(tag, impl)` draws one id for a Succeed of the one-binding context |
| Layers.LayerIds.Merge | src/pyfect/layer.py:137-144 | `merge(l1, l2)` draws one id for "build l1, then l2, merge the contexts" |
| Layers.LayerIds.Provide | src/pyfect/layer.py:179-187 | `provide(outer)(inner)` draws one id for "build outer, then inner under its context" |
| Layers.LayerIds.Tap | src/pyfect/layer.py:235-236 | `tap(f)(l)` draws one id for Tap of l's effect |
| Layers.LayerIds.TapError | src/pyfect/layer.py:260-261 | `tap_error(f)(l)` draws one id for TapError of l's effect |
| Layers.LayerIds.Effect | src/pyfect/layer.py:266-286 | `effect(tag, eff)` draws one id for eff mapped into a one-binding context |
| Layers.LayerIds.Sync | src/pyfect/layer.py:289-307 | `sync(tag, thunk)` draws one id for the thunk mapped into a one-binding context |
| Layers.LayerIds.Fresh | src/pyfect/layer.py:310-331 | `fresh(l)` takes the wrapper off and draws a new id, so the key differs from l's |
| Layers.SucceedLayerLaw | src/pyfect/layer.py:64-81 | building gives the context binding exactly that tag, stored under the id, and runs nothing |
| Layers.SyncLayerLaw | src/pyfect/layer.py:289-307 | the thunk runs once; its value is bound to the tag, and what it raises escapes |
| Layers.EffectLayerLaw | src/pyfect/layer.py:266-286 | eff runs once; its success is bound to the tag and its failure is the layer's |
| Layers.MergeLayerLaw | src/pyfect/layer.py:137-144 | l1 is built first; if it fails l2 is not built; otherwise the two contexts are merged, l2 winning |
| Layers.ProvideLayerLaw | src/pyfect/layer.py:179-187 | outer is built first, then inner under outer's context; an outer failure stops the build |
| Layers.LaunchLaw | src/pyfect/layer.py:192-213 | launch succeeds with None once the layer is built, and propagates a construction failure |
| Layers.TapLayerLaw | src/pyfect/layer.py:216-238 | f runs only on success and its failure propagates; the context is kept |
| Layers.TapErrorLayerLaw | src/pyfect/layer.py:241-263 | f runs only on failure, and the original error is re-surfaced |
| Layers.BuiltOncePerRun | src/pyfect/runtime.py:133-140 | once a layer is built in a run, any later use in that run returns the same value without building again |
| Layers.FreshRebuilds | src/pyfect/layer.py:310-331 | a fresh layer runs the original construction again under its own key |
| Layers.SucceedConstruction | src/pyfect/layer.py:81 | no contract of its own: Succeed of the one-binding context; stated by Layers.SucceedLayerLaw |
| Layers.MergeConstruction | src/pyfect/layer.py:137-144 | no contract of its own: build l1, then l2, merge the contexts; stated by Layers.MergeLayerLaw |
| Layers.ProvideConstruction | src/pyfect/layer.py:179-187 | no contract of its own: build outer, then inner under its context; stated by Layers.ProvideLayerLaw |
| Layers.TapConstruction | src/pyfect/layer.py:235-236 | no contract of its own: Tap of the layer's effect; stated by Layers.TapLayerLaw |
| Layers.TapErrorConstruction | src/pyfect/layer.py:260-261 | no contract of its own: TapError of the layer's effect; stated by Layers.TapErrorLayerLaw |
| Layers.EffectConstruction | src/pyfect/layer.py:286 | no contract of its own: the effect mapped into a one-binding context; stated by Layers.EffectLayerLaw |
| Layers.SyncConstruction | src/pyfect/layer.py:307 | no contract of its own: the thunk mapped into a one-binding context; stated by Layers.SyncLayerLaw |
| Layers.FreshConstruction | src/pyfect/layer.py:329-331 | no contract of its own: the layer's effect with its memo wrapper taken off; stated by Layers.FreshRebuilds and Layers.LayerIds.Fresh |
| Layers.Launch | src/pyfect/layer.py:213 | no contract of its own: the construction mapped to None; stated by Layers.LaunchLaw |
| LayerSharing.DependentLaw | tests/layer/test_layer_memo.py:28-57 | a dependent layer builds (or finds) Config and reads the instance from its context |
| LayerSharing.ConfigBuild | tests/layer/test_layer_memo.py:28-57 | building Config calls make_config once |
| LayerSharing.MergeSingletons | src/pyfect/layer.py:137-144 | merging two single bindings of different tags binds both |
| LayerSharing.MergeBuilt | src/pyfect/layer.py:137-144 | merging two built layers gives their merged contexts, stored under the merge's id |
| LayerSharing.DiamondRun | tests/layer/test_layer_memo.py:28-57 | a run of the diamond, given what building each branch does |
| LayerSharing.DependentBuildsConfig | tests/layer/test_layer_memo.py:28-57 | a dependent whose Config is not yet built constructs it, once |
| LayerSharing.DependentReusesConfig | tests/layer/test_layer_memo.py:28-57 | a dependent whose Config is already built reuses that instance |
| LayerSharing.SharedLayerBuiltOnce | tests/layer/test_layer_memo.py:28-57 | in the diamond, Config is constructed once per run and both dependents see the same instance |
| LayerSharing.SharedConfigBuiltOnce | tests/layer/test_layer_memo.py:28-57 | the same, for any ids the counter may have drawn |
| LayerSharing.FreshConfigIsConfig | src/pyfect/layer.py:310-331 | `fresh(config)` is Config's construction under the new key |
| LayerSharing.FreshBuildsTwice | tests/layer/test_layer_memo.py:138-167 | with `fresh` on both branches Config is constructed twice in one run, and each dependent sees its own instance |
| LayerSharing.SeparateConfigsBuildTwice | tests/layer/test_layer_memo.py:138-167 | the same, for any ids |
| LayerSharing.SelfMergeBuiltOnce | tests/layer/test_layer_memo.py:93-111 | a layer merged with itself is constructed once |
| LayerSharing.MemoIsPerRun | tests/layer/test_layer_memo.py:113-136 | memoisation does not outlive a run: two runs construct twice and see different instances |
| LayerSharing.BuildSharedDiamond | tests/layer/test_layer_memo.py:28-57 | the shared diamond built from the counter in the test's order, with the ids it draws |
| LayerSharing.BuildFreshDiamond | tests/layer/test_layer_memo.py:138-167 | the fresh diamond built from the counter in the test's order |
| Constructors.Services | src/pyfect/constructors.py:243-269 | one tag gives a single Service lookup; two or more give the left-to-right chain; no tag raises |
| Constructors.LookupAllSpec | src/pyfect/constructors.py:262-269 | the lookups succeed iff every tag is bound, with the instances in tag order; otherwise the first unbound tag's error |
| Constructors.LookupOne | src/pyfect/constructors.py:260-261 | `service(t)` is exactly one Service(t) lookup |
| Constructors.ServiceChainLooksUpInOrder | src/pyfect/constructors.py:262-269 | running `service(t1, ..., tn)` gives the tuple of instances in argument order, or raises for the first unbound tag, and changes nothing |
| Constructors.ServiceChain | src/pyfect/constructors.py:262-269 | no contract of its own: a chain of Service lookups collected into a tuple; stated by Constructors.ServiceChainLooksUpInOrder |
| Constructors.SyncRunsThunkOnRun | tests/test_basic.py:33-48 | building `sync(thunk)` calls nothing; each run calls the thunk once, on the world as the run finds it |
| Constructors.TrySyncCatchesWhatSyncRaises | tests/test_try.py:178-192 | under `run_sync_exit` an Exception from the thunk is a failure with `try_sync` and escapes with `sync` |
| Constructors.SuspendBuildsOnEachRun | src/pyfect/constructors.py:119-142 | every run calls the factory on the current world and runs what it builds |
| Constructors.SuspendSeesFreshState | tests/constructors/test_suspend.py:18-39 | two runs of a suspended counter see n+1, then n+2, while a prebuilt Succeed gives the same value twice |
| Combinators.MapWithOnRun | src/pyfect/combinators.py:45 | `map(f)` applies f to the success value and leaves a failure or a raise unchanged |
| Combinators.TapWithKeepsValue | tests/effect/test_tap.py:25-34 | `tap(f)` gives the original value, not f's; a failing body is raised |
| Combinators.TapErrorSkippedOnSuccess | tests/effect/test_tap.py:96-106 | on success, `tap_error(f)` runs exactly like the effect |
| Combinators.TapErrorResurfacesOriginal | tests/effect/test_tap.py:130-140 | on failure, `run_sync` raises the original error even when f fails |
| Combinators.MapWith | src/pyfect/combinators.py:45 | no contract of its own: the Map node; stated by Combinators.MapWithOnRun |
| Combinators.TapWith | src/pyfect/combinators.py:73 | no contract of its own: the Tap node; stated by Combinators.TapWithKeepsValue |
| Combinators.TapErrorWith | src/pyfect/combinators.py:94 | no contract of its own: the TapError node; stated by Combinators.TapErrorSkippedOnSuccess and Combinators.TapErrorResurfacesOriginal |
| Combinators.ChainedTapsInOrder | tests/effect/test_tap.py:143-155 | chained taps run in pipeline order and keep the value |
| Combinators.TwoTapsLogInOrder | tests/effect/test_tap.py:143-155 | the example logs "First" then "Second" |
| Control.If | src/pyfect/control.py:54-85 | no contract of its own: run the test, then one branch; stated by Control.IfRunsOneBranch |
| Control.When | src/pyfect/control.py:97-130 | no contract of its own: the condition is read when the effect runs; stated by Control.WhenRunsOnlyIfCondition |
| Control.Unless | src/pyfect/control.py:133-167 | no contract of its own: When of the negated condition; stated by Control.UnlessIsWhenNegated |
| Control.WhenEffect | src/pyfect/control.py:181-217 | no contract of its own: run the condition effect, then the effect only on True; stated by Control.WhenEffectRunsOnlyIfTrue |
| Control.UnlessEffect | src/pyfect/control.py:226-262 | no contract of its own: WhenEffect with the result negated; stated by Control.UnlessEffectIsWhenEffectNegated |
| Control.ZipWith | src/pyfect/control.py:531-562 | no contract of its own: a mapped ZipPar pair when concurrent, otherwise FlatMap then Map; stated by Control.ZipWithSequential and Control.ZipWithConcurrent |
| Control.Loop | src/pyfect/control.py:592-663 | no contract of its own: a Suspend around the loop's iterations; stated by Control.CollectsVisitedStates and Control.DiscardRecordsVisitedStates |
| Control.IfRunsOneBranch | src/pyfect/control.py:82-85 | on_true runs iff the predicate succeeds with a truthy value, on_false iff it succeeds with a falsy one; neither when it fails |
| Control.WhenRunsOnlyIfCondition | src/pyfect/control.py:121-128 | the condition is read at run time; true runs the effect and wraps its value in Some; false gives Nothing and runs nothing |
| Control.UnlessIsWhenNegated | src/pyfect/control.py:158-165 | `unless(c)` runs exactly as `when(not c)` |
| Control.WhenEffectRunsOnlyIfTrue | src/pyfect/control.py:207-215 | a condition failure is the result and the effect is skipped; truthy runs it in Some; falsy gives Nothing |
| Control.UnlessEffectIsWhenEffectNegated | src/pyfect/control.py:252-260 | `unless_effect(c)` is `when_effect` of the negated condition |
| Control.Zip | src/pyfect/control.py:472-483 | no effect raises ValueError; concurrent gives one ZipPar node; otherwise the loop builds the left-to-right chain |
| Control.ZipRunIsTuple | src/pyfect/control.py:479-483 | a successful sequential run gives one value per effect |
| Control.ZipRunStopsAtFirstFailure | src/pyfect/control.py:479-483 | nothing after the first effect that does not succeed runs |
| Control.ZipChainRunsInOrder | src/pyfect/control.py:479-483 | the sequential chain runs left to right, collects the tuple in order, and stops at the first failure |
| Control.Successes | src/pyfect/runtime.py:144-152 | the exits of effects that succeeded with the given values |
| Control.JoinOfSuccesses | src/pyfect/runtime.py:241-247 | joining exits that all succeeded gives their tuple |
| Control.BlockingZipFromIsZipRun | src/pyfect/runtime.py:144-152 | one step of the sync ZipPar loop ends as the sequential run |
| Control.ZipParIsSequentialWhenBlocking | src/pyfect/runtime.py:144-152 | under `run_sync` a concurrent zip runs exactly as the sequential one |
| Control.ZipWithSequential | src/pyfect/control.py:562 | eff1 then eff2, combined by f; a failure of eff1 skips eff2 |
| Control.ZipWithConcurrent | src/pyfect/control.py:557-561 | when both succeed the result is f of the two values; under `run_sync` a failure or raise of eff1 is the result and eff2 never runs, otherwise eff2's is; under `run_async` both always run, a raise escapes (eff1's first), and otherwise the first failure by position is the result |
| Control.PairZip | src/pyfect/runtime.py:237-247 | a ZipPar of two effects under both runners: the second member runs after a raise of the first under `run_async`, and the first exception escapes |
| Control.JoinPair | src/pyfect/runtime.py:241-247 | the join of two exits is the first failure by position, or the pair of values |
| Control.CollectIteration | src/pyfect/control.py:651-663 | one iteration of a collecting loop: a false condition gives []; otherwise the body's value goes in front of the rest, and a body failure ends the loop |
| Control.DiscardIteration | src/pyfect/control.py:638-649 | one iteration of a discarding loop: a false condition gives None; a body failure stops further iterations |
| Control.BodyValues | src/pyfect/control.py:651-663 | one body value per visited state, in order |
| Control.CollectsVisitedStates | src/pyfect/control.py:651-663 | a collecting loop yields [body(s0), body(s1), ...] over the visited states, or RecursionError past its bound |
| Control.RecordAppends | tests/control/test_loop.py:134-146 | the recording body appends its state and succeeds with None |
| Control.DiscardRecordStep | src/pyfect/control.py:638-649 | the inductive step of the discarding loop |
| Control.DiscardRecordsVisitedStates | src/pyfect/control.py:638-649 | a discarding loop runs the body on every visited state in order and yields None, or RecursionError past its bound |
| Control.IterationsCons | src/pyfect/control.py:651-663 | one visited state in front of those visited from the next state |
| Control.CollectExample | tests/control/test_loop.py:10-18 | from 1 while at most 5, the loop collects [1, 2, 3, 4, 5] |
| Control.DiscardExample | tests/control/test_loop.py:134-146 | from 1 while at most 3, states 1, 2, 3 are recorded and the value is None |
| Errors.AbsorbThenHandle | src/pyfect/error.py:67-73 | the shared shape of the handlers: a success or a failure is handed to the handler, and a raise passes through |
| Errors.CatchAll | src/pyfect/error.py:67-73 | no contract of its own: FlatMap over Absorb with a handler that always recovers; stated by Errors.CatchAllRecovers |
| Errors.CatchSome | src/pyfect/error.py:118-127 | no contract of its own: recovers where the handler gives Some; stated by Errors.CatchSomeRecoversSelectively |
| Errors.CatchIf | src/pyfect/error.py:182-190 | no contract of its own: recovers where the predicate holds; stated by Errors.CatchIfRecoversIffPredicate |
| Errors.CatchAllRecovers | src/pyfect/error.py:67-73 | a success passes through without calling f; a failure e gives whatever f(e) gives; a raise is not caught |
| Errors.CatchSomeRecoversSelectively | src/pyfect/error.py:118-127 | Some(eff) recovers with eff; Nothing re-fails with the identical error; a success passes through |
| Errors.CatchIfRecoversIffPredicate | src/pyfect/error.py:182-190 | a failure is recovered iff the predicate holds of it; otherwise it re-fails with e; on success the predicate is not consulted |
| Errors.CatchAllIsCatchSomeAlways | src/pyfect/error.py:67-73 | `catch_all(f)` runs as `catch_some` with a handler that always recovers |
| Errors.CatchIfIsCatchSomeGuarded | src/pyfect/error.py:182-190 | `catch_if(p, r)` runs as `catch_some` recovering exactly where p holds |
| Errors.CatchAllExample | tests/effect/test_catch_all.py:15-20 | the recovered message example |
| Interop.FromOption | src/pyfect/interop.py:32-37 | Some(v) gives Succeed(v) with the error thunk uncalled; Nothing gives Fail of the thunk's result |
| Interop.FromEither | src/pyfect/interop.py:54-58 | no contract of its own: Succeed for a Right and Fail for a Left; stated by Interop.FromEitherRuns and Interop.EitherOfFromEither |
| Interop.FromEitherRuns | src/pyfect/interop.py:54-58 | a Right runs as a success and a Left as a failure with the same value |
| Interop.EitherOfFromEither | src/pyfect/interop.py:54-58 | `either(from_either(e))` succeeds with e itself |
| Interop.EitherThenFromEitherRestores | src/pyfect/interop.py:118 | absorbing with `either` and re-raising with `from_either` restores the run of the effect exactly |
| Interop.AsOption | src/pyfect/interop.py:81-86 | no contract of its own: Absorb mapped to Some or Nothing; stated by Interop.OptionNeverFails and Interop.OptionOfFromOption |
| Interop.AsEither | src/pyfect/interop.py:118 | no contract of its own: the Absorb node; stated by Interop.EitherOfFromEither and Interop.EitherThenFromEitherRestores |
| Interop.OptionNeverFails | src/pyfect/interop.py:81-86 | `option(eff)` never fails: success v gives Some(v), any failure gives Nothing |
| Interop.OptionOfFromOption | src/pyfect/interop.py:81-86 | `option(from_option(error)(o))` gives back o |
| Legacy.RunSync | src/pyfect/effect.py:306-357 | no contract of its own: Fail is raised via `Raisable`, TrySync lets an Exception propagate, Tap keeps the value, TapError re-raises; stated by Legacy.FailRaisesOnlyInRunSync, Legacy.TapKeepsValue, Legacy.TapErrorReraises and Legacy.LeafRunnersAgree |
| Legacy.RunSyncExit | src/pyfect/effect.py:422-479 | no contract of its own: Fail is returned as a failure, TrySync catches an Exception, TapError keeps the original failure; stated by Legacy.FailRaisesOnlyInRunSync, Legacy.TrySyncCaughtOnlyByExit, Legacy.TapExitKeepsValue, Legacy.TapErrorExitKeepsFailure and Legacy.SuspendBuildsOnEachRun |
| Legacy.FailRaisesOnlyInRunSync | src/pyfect/effect.py:327-331 | `run_sync` raises an exception error as itself and any other error inside a RuntimeError; `run_sync_exit` returns the failure (lines 445-446) |
| Legacy.TrySyncCaughtOnlyByExit | src/pyfect/effect.py:471-476 | `run_sync_exit` turns an Exception from the thunk into a failure while `run_sync` (lines 352-354) lets it propagate; a BaseException escapes both |
| Legacy.TapExitKeepsValue | src/pyfect/effect.py:447-456 | Tap returns the original value; its body runs through `run_sync`, so a failing body raises |
| Legacy.TapKeepsValue | src/pyfect/effect.py:332-338 | the same in `run_sync` |
| Legacy.TapErrorExitKeepsFailure | src/pyfect/effect.py:457-467 | TapError suppresses its body and returns the original failure |
| Legacy.TapErrorReraises | src/pyfect/effect.py:339-348 | TapError in `run_sync` re-raises the original exception whatever its body does |
| Legacy.SuspendBuildsOnEachRun | src/pyfect/effect.py:468-470 | Suspend calls its factory on each evaluation and runs what it built |
| Legacy.AsyncCannotRunSync | src/pyfect/effect.py:477-479 | both runners raise "Cannot run Async/TryAsync synchronously" |
| Legacy.LeafRunnersAgree | src/pyfect/effect.py:322-357 | on nodes without a body, `run_sync` is `run_sync_exit` with a failure raised |
| Legacy.TapErrorBodySeesDifferentValues | src/pyfect/effect.py:339-348 | for the same failure, the TapError body sees the raised RuntimeError in `run_sync` but the raw error in `run_sync_exit` (line 466) |

## Left out

- Concurrency: `asyncio.gather` in the async ZipPar is modelled as running every member one after another, in listed order, even after one has raised; the first exception by position then escapes, and otherwise the join scan runs. Interleavings and awaiting are not modelled, so the exception escaping is the first by position rather than the first in time.
- Contexts.Merge: `context.merge` is not defined in the context.py modelled here; it is modelled from its uses (runtime.py:131-132, layer.py:137-144) and the right-wins behaviour in tests/layer/test_layer_merge.py:68-84.
- Sleep: the duration and the waiting are not modelled. Sleep succeeds with None and changes nothing.
- Fuel: `Eval`, the legacy runners and the loop proofs carry a fuel bound. It decreases at every continuation step (FlatMap, Tap, TapError, Suspend). A run that exhausts it ends in `OutOfFuel`, which stands for a run that does not finish within the bound. Every law states what happens whenever the run finishes.
- Control.Loop: Python's recursion limit is modelled as an explicit `bound` on the number of iterations. Past the bound the loop raises RecursionError, the error Python raises when the chain of suspended calls gets too deep. The real limit depends on the interpreter's stack.
- Control.When: the condition thunk of `when`/`unless` is a function that reads the world and does not change it. A condition with side effects, or one that raises, is not modelled.
- Control.CollectsVisitedStates: stated for bodies that always succeed. A failing body is covered one iteration at a time by Control.CollectIteration.
- Control.DiscardRecordsVisitedStates: stated for the recording body of the tests. Other bodies are covered one iteration at a time by Control.DiscardIteration.
- Control.ZipChainRunsInOrder: stated whenever the reference run finishes within the fuel; the chain needs one more unit of fuel than the reference.
- Constructors.Snoc: `(*acc, s)` on an accumulator that is not a tuple is not modelled: the accumulator becomes the first element of a new tuple. The chain only ever builds tuples.
- Control.Prepend: `[a, *rest]` on a value that is not a list is not modelled: the result is the one-element list [a]. The loop only ever builds lists.
- Control.ApplyToPair: a ZipPar result that is not a pair is not modelled: it is passed through unchanged. ZipPar of two effects only gives pairs.
- Errors.Payload: `e.value` on a value that is not an Either is not modelled (the value itself stands in). Absorb only gives Eithers.
- Layers.AsContext: a layer whose construction succeeds with something other than a context contributes no binding. Python would fail inside `merge`.
- Interop.FromOption: an error thunk that raises is not modelled. The thunk returns an error value and may change the world.
- Interop.FromEither: the AssertionError for an argument that is neither Right nor Left (`interop.py:61`) cannot arise, since the model's Either has only those two variants.
- User callables: thunks and factories may read and change the world and may raise. Map, FlatMap, Tap and MapError functions and predicates are pure total functions. A handler that raises while the effect tree is being built is not modelled.
- Python identity and typing: `is` checks, the Nothing singleton, frozen-dataclass enforcement and the overload and Protocol scaffolding have no counterpart. Datatype equality stands in for them.
- The legacy `run_async` and `run_async_exit` of `effect.py` are not modelled. They await thunks, and their synchronous reading adds nothing to `run_sync`/`run_sync_exit`.
- The effect-level `provide(layer)`, `effect.all_`, `for_each`, `delay` and `as_` are not part of this model. Their definitions are not among the source files modelled.
- I/O: printing in the examples is modelled as appending to a list cell of the world.
- The exceptions' `__cause__` mutation is modelled only as the `cause` field set by MapError (Runtime.WithCause), on a copy of the error value.
