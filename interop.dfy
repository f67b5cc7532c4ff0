// Conversions between effects and the Option and Either values:
// `from_option`, `from_either`, `option` and `either`.

module Interop {
  import opened Options
  import opened Eithers
  import opened Values
  import opened Exits
  import opened Contexts
  import opened Primitives
  import opened Runtime
  import opened RuntimeLaws

  /**
   * `from_option(error)(opt)`: Some becomes a success; Nothing a failure
   * with the error thunk's result.  The thunk runs when the effect is
   * built, and only for Nothing, so the world it sees and leaves is
   * threaded through here.
   */
  function FromOption(error: World -> (Value, World), opt: Option<Value>, w: World): (r: (Effect, World))
    ensures opt.Some? ==> r == (Succeed(opt.value), w)
    ensures opt.Nothing? ==> r.0.Fail? && (r.0.error, r.1) == error(w)
  {
    match opt
    case Some(v) => (Succeed(v), w)
    case Nothing =>
      var (err, after) := error(w);
      (Fail(err), after)
  }

  /** `from_either(e)`: Right becomes a success, Left a failure with the same value. */
  function FromEither(e: Either<Value, Value>): Effect
  {
    match e
    case Right(v) => Succeed(v)
    case Left(err) => Fail(err)
  }

  /** `_to_option`: a Right keeps its value in Some; anything else is Nothing. */
  function ToOption(e: Value): Value
  {
    if e.EitherV? && e.either.Right? then OptionV(Some(e.either.right)) else OptionV(Nothing)
  }

  /** `option(eff)`. */
  function AsOption(eff: Effect): Effect
  {
    Map(Absorb(eff), ToOption)
  }

  /** `either(eff)`. */
  function AsEither(eff: Effect): Effect
  {
    Absorb(eff)
  }

  /** The exit a run of `from_either(e)` ends with: Right is success, Left failure; nothing changes. */
  lemma FromEitherRuns(s: Strategy, e: Either<Value, Value>, ctx: Context, st: State, fuel: nat)
    ensures e.Right? ==> Eval(s, FromEither(e), ctx, st, fuel) == Step(Ok(ExitSuccess(e.right)), st)
    ensures e.Left? ==> Eval(s, FromEither(e), ctx, st, fuel) == Step(Ok(ExitFailure(e.left)), st)
  {
  }

  /** `either(from_either(e))` gives back e itself. */
  lemma EitherOfFromEither(s: Strategy, e: Either<Value, Value>, ctx: Context, st: State, fuel: nat)
    ensures Eval(s, AsEither(FromEither(e)), ctx, st, fuel) == Step(Ok(ExitSuccess(EitherV(e))), st)
  {
    AbsorbNeverFails(s, FromEither(e), ctx, st, fuel);
  }

  /** `lambda x: from_either(x)` on the Either value `either` produced. */
  function Reraise(e: Value): Effect
  {
    if e.EitherV? then FromEither(e.either) else Succeed(e)
  }

  /**
   * Absorbing an effect with `either` and turning the Either back into an
   * effect with `from_either` restores the run of the effect exactly: its
   * value, its failure, an escaping exception and the state alike.
   */
  lemma EitherThenFromEitherRestores(s: Strategy, eff: Effect, ctx: Context, st: State, fuel: nat)
    ensures Eval(s, FlatMap(AsEither(eff), Reraise), ctx, st, fuel + 1) == Eval(s, eff, ctx, st, fuel + 1)
  {
    AbsorbNeverFails(s, eff, ctx, st, fuel + 1);
    FlatMapLaw(s, Absorb(eff), Reraise, Reraise, ctx, st, fuel + 1);
    var r := Eval(s, eff, ctx, st, fuel + 1);
    if r.outcome.Ok? && r.outcome.value.ExitSuccess? {
      assert Reraise(EitherV(Right(r.outcome.value.value))) == Succeed(r.outcome.value.value);
    } else if r.outcome.Ok? {
      assert Reraise(EitherV(Left(r.outcome.value.error))) == Fail(r.outcome.value.error);
    }
  }

  /**
   * `option(eff)` never fails: a success v becomes Some(v), a failure
   * becomes Nothing (the error is dropped); an escaping exception is not
   * absorbed.
   */
  lemma OptionNeverFails(s: Strategy, eff: Effect, ctx: Context, st: State, fuel: nat)
    ensures var r := Eval(s, eff, ctx, st, fuel);
      var o := Eval(s, AsOption(eff), ctx, st, fuel);
      (r.outcome.Ok? && r.outcome.value.ExitSuccess? ==>
        o == Step(Ok(ExitSuccess(OptionV(Some(r.outcome.value.value)))), r.state)) &&
      (r.outcome.Ok? && r.outcome.value.ExitFailure? ==> o == Step(Ok(ExitSuccess(OptionV(Nothing))), r.state)) &&
      (!r.outcome.Ok? ==> o == r)
  {
    AbsorbNeverFails(s, eff, ctx, st, fuel);
    MapLaw(s, Absorb(eff), ToOption, ctx, st, fuel);
  }

  /**
   * `option(from_option(error)(opt))` gives back opt: a Some round-trips
   * without calling the thunk, and Nothing comes back as Nothing whatever
   * the thunk returned.
   */
  lemma OptionOfFromOption(s: Strategy, error: World -> (Value, World), opt: Option<Value>,
                           ctx: Context, st: State, fuel: nat)
    ensures var (e, w) := FromOption(error, opt, st.world);
      Eval(s, AsOption(e), ctx, st.(world := w), fuel) == Step(Ok(ExitSuccess(OptionV(opt))), st.(world := w))
  {
    var (e, w) := FromOption(error, opt, st.world);
    OptionNeverFails(s, e, ctx, st.(world := w), fuel);
  }
}
