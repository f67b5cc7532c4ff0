// The Option value algebra: a value that is either present (`Some`) or
// absent (`Nothing`), with its mapping, filtering, extraction, fallback and
// combining operations.  Python's curried helpers (`map_(f)(opt)`) take the
// Option as their last argument here.

module Options {

  datatype Option<A> = Some(value: A) | Nothing

  /** The outcome of `get_or_raise`: the value, or the ValueError it raises. */
  datatype Extracted<A> = Got(value: A) | ValueErrorRaised(message: string)

  function IsSome<A>(opt: Option<A>): bool
  {
    opt.Some?
  }

  function IsNothing<A>(opt: Option<A>): bool
  {
    opt.Nothing?
  }

  /** The two guards are complementary. */
  lemma GuardsComplementary<A>(opt: Option<A>)
    ensures IsSome(opt) != IsNothing(opt)
  {
  }

  /** `lift_predicate(p)(v)`: Some(v) when p holds of v, otherwise Nothing. */
  function LiftPredicate<A>(p: A -> bool, v: A): (r: Option<A>)
    ensures r.Some? <==> p(v)
    ensures r.Some? ==> r.value == v
  {
    if p(v) then Some(v) else Nothing
  }

  /** `match_`: exactly one handler is applied, chosen by the variant. */
  function Match<A, B>(opt: Option<A>, onSome: A -> B, onNothing: () -> B): (r: B)
    ensures opt.Some? ==> r == onSome(opt.value)
    ensures opt.Nothing? ==> r == onNothing()
  {
    match opt
    case Some(v) => onSome(v)
    case Nothing => onNothing()
  }

  function Map<A, B>(f: A -> B, opt: Option<A>): (r: Option<B>)
    ensures r.Some? <==> opt.Some?
    ensures r.Some? ==> r.value == f(opt.value)
  {
    match opt
    case Some(v) => Some(f(v))
    case Nothing => Nothing
  }

  function FlatMap<A, B>(f: A -> Option<B>, opt: Option<A>): (r: Option<B>)
    ensures opt.Nothing? ==> r.Nothing?
    ensures opt.Some? ==> r == f(opt.value)
  {
    match opt
    case Some(v) => f(v)
    case Nothing => Nothing
  }

  function Filter<A>(p: A -> bool, opt: Option<A>): (r: Option<A>)
    ensures r.Some? <==> opt.Some? && p(opt.value)
    ensures r.Some? ==> r == opt
  {
    match opt
    case Some(v) => if p(v) then opt else Nothing
    case Nothing => Nothing
  }

  /** Filtering a present value agrees with the lifted predicate. */
  lemma FilterIsLiftPredicate<A>(p: A -> bool, v: A)
    ensures Filter(p, Some(v)) == LiftPredicate(p, v)
  {
  }

  /** The default thunk only matters when the Option is Nothing. */
  function GetOrElse<A>(default: () -> A, opt: Option<A>): (r: A)
    ensures opt.Some? ==> r == opt.value
    ensures opt.Nothing? ==> r == default()
  {
    match opt
    case Some(v) => v
    case Nothing => default()
  }

  function GetOrRaise<A>(opt: Option<A>): (r: Extracted<A>)
    ensures r.Got? <==> opt.Some?
    ensures r.Got? ==> r.value == opt.value
    ensures r.ValueErrorRaised? ==> r.message == "get_or_raise called on Nothing"
  {
    match opt
    case Some(v) => Got(v)
    case Nothing => ValueErrorRaised("get_or_raise called on Nothing")
  }

  /** The alternative thunk only matters when the Option is Nothing. */
  function OrElse<A>(alternative: () -> Option<A>, opt: Option<A>): (r: Option<A>)
    ensures opt.Some? ==> r == opt
    ensures opt.Nothing? ==> r == alternative()
  {
    match opt
    case Some(_) => opt
    case Nothing => alternative()
  }

  function ZipWith<A, B, C>(a: Option<A>, b: Option<B>, f: (A, B) -> C): (r: Option<C>)
    ensures r.Some? <==> a.Some? && b.Some?
    ensures r.Some? ==> r.value == f(a.value, b.value)
  {
    match (a, b)
    case (Some(x), Some(y)) => Some(f(x, y))
    case _ => Nothing
  }

  /** Two successive maps fuse into one map of the composed function. */
  lemma MapComposes<A, B, C>(f: A -> B, g: B -> C, opt: Option<A>)
    ensures Map(g, Map(f, opt)) == Map(x => g(f(x)), opt)
  {
  }

  /** `first_some_of`: scans in order and stops at the first Some. */
  method FirstSomeOf<A>(options: seq<Option<A>>) returns (r: Option<A>)
    ensures r.Nothing? <==> forall i | 0 <= i < |options| :: options[i].Nothing?
    ensures r.Some? ==> exists k | 0 <= k < |options| ::
      options[k] == r && forall j | 0 <= j < k :: options[j].Nothing?
  {
    for i := 0 to |options|
      invariant forall j | 0 <= j < i :: options[j].Nothing?
    {
      if IsSome(options[i]) {
        return options[i];
      }
    }
    return Nothing;
  }

  /** `all_` over a list: Some of every value in order, or Nothing. */
  method All<A>(options: seq<Option<A>>) returns (r: Option<seq<A>>)
    ensures r.Some? <==> forall i | 0 <= i < |options| :: options[i].Some?
    ensures r.Some? ==> |r.value| == |options|
    ensures r.Some? ==> forall i | 0 <= i < |options| :: r.value[i] == options[i].value
  {
    var values: seq<A> := [];
    for i := 0 to |options|
      invariant |values| == i
      invariant forall j | 0 <= j < i :: options[j].Some? && values[j] == options[j].value
    {
      match options[i]
      case Some(v) =>
        values := values + [v];
      case Nothing =>
        return Nothing;
    }
    return Some(values);
  }

  /**
   * `all_` over a dict, given as its items in insertion order: Some of the
   * same keys, in the same order, bound to the unwrapped values, or Nothing.
   */
  method AllItems<K, A>(options: seq<(K, Option<A>)>) returns (r: Option<seq<(K, A)>>)
    ensures r.Some? <==> forall i | 0 <= i < |options| :: options[i].1.Some?
    ensures r.Some? ==> |r.value| == |options|
    ensures r.Some? ==> forall i | 0 <= i < |options| ::
        r.value[i].0 == options[i].0 && r.value[i].1 == options[i].1.value
  {
    var result: seq<(K, A)> := [];
    for i := 0 to |options|
      invariant |result| == i
      invariant forall j | 0 <= j < i ::
        options[j].1.Some? && result[j] == (options[j].0, options[j].1.value)
    {
      var (key, opt) := options[i];
      if opt.Some? {
        result := result + [(key, opt.value)];
      } else {
        return Nothing;
      }
    }
    return Some(result);
  }
}
