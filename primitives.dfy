// The effect node algebra.  A program is an immutable tree of these nodes;
// the runtime interprets it.  User callables are Dafny functions:
//  - thunks receive the world (the state user code can observe) and return
//    what the call did together with the world afterwards;
//  - continuations and error/value transformers are total functions.

module Primitives {
  import opened Values
  import opened Contexts

  /** A user thunk: returns or raises, and may change the world. */
  type Thunk = World -> (Call<Value>, World)

  datatype Effect =
    | Succeed(value: Value)
    | Fail(error: Value)
    | Sync(thunk: Thunk)
    | Async(thunk: Thunk)
    | TrySync(thunk: Thunk)
    | TryAsync(thunk: Thunk)
      /** A thunk that builds the effect to run, called on every evaluation. */
    | Suspend(factory: World -> (Call<Effect>, World))
    | Tap(effect: Effect, f: Value -> Effect)
    | TapError(effect: Effect, f: Value -> Effect)
    | Map(effect: Effect, transform: Value -> Value)
    | FlatMap(effect: Effect, f: Value -> Effect)
    | Ignore(effect: Effect)
    | MapError(effect: Effect, transform: Value -> Value)
    | Absorb(effect: Effect)
    | Service(tag: Tag)
    | Provide(effect: Effect, context: Context)
      /** The effect of a layer; the runtime keys its memo table by `layerId`. */
    | MemoizedEffect(effect: Effect, layerId: int)
      /** A pause, in microseconds; its timing is not modelled. */
    | Sleep(duration: int)
      /** Member effects whose results are zipped, in order, into a tuple. */
    | ZipPar(effects: seq<Effect>)
}
