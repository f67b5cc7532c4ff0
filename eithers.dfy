// The Either value algebra: a success value on the `Right` or an error value
// on the `Left`, with mapping, chaining, combining and collecting.  Python's
// curried helpers take the Either as their last argument here.

module Eithers {

  datatype Either<R, L> = Right(right: R) | Left(left: L)

  function IsRight<R, L>(e: Either<R, L>): bool
  {
    e.Right?
  }

  function IsLeft<R, L>(e: Either<R, L>): bool
  {
    e.Left?
  }

  /** Every Either is exactly one of the two variants. */
  lemma GuardsComplementary<R, L>(e: Either<R, L>)
    ensures IsRight(e) <==> !IsLeft(e)
  {
  }

  /** `match_`: exactly one handler is applied, chosen by the variant. */
  function Match<R, L, B>(e: Either<R, L>, onLeft: L -> B, onRight: R -> B): (r: B)
    ensures e.Right? ==> r == onRight(e.right)
    ensures e.Left? ==> r == onLeft(e.left)
  {
    match e
    case Right(v) => onRight(v)
    case Left(v) => onLeft(v)
  }

  function Map<R, R2, L>(f: R -> R2, e: Either<R, L>): (r: Either<R2, L>)
    ensures e.Right? ==> r == Right(f(e.right))
    ensures e.Left? ==> r == Left(e.left)
  {
    match e
    case Right(v) => Right(f(v))
    case Left(v) => Left(v)
  }

  function MapLeft<R, L, L2>(f: L -> L2, e: Either<R, L>): (r: Either<R, L2>)
    ensures e.Left? ==> r == Left(f(e.left))
    ensures e.Right? ==> r == Right(e.right)
  {
    match e
    case Right(v) => Right(v)
    case Left(v) => Left(f(v))
  }

  function MapBoth<R, R2, L, L2>(onRight: R -> R2, onLeft: L -> L2, e: Either<R, L>): (r: Either<R2, L2>)
    ensures r.Right? <==> e.Right?
    ensures e.Right? ==> r.right == onRight(e.right)
    ensures e.Left? ==> r.left == onLeft(e.left)
  {
    match e
    case Right(v) => Right(onRight(v))
    case Left(v) => Left(onLeft(v))
  }

  /** Mapping both sides is mapping the right side and then the left side. */
  lemma MapBothIsMapThenMapLeft<R, R2, L, L2>(onRight: R -> R2, onLeft: L -> L2, e: Either<R, L>)
    ensures MapBoth(onRight, onLeft, e) == MapLeft(onLeft, Map(onRight, e))
  {
  }

  function FlatMap<R, R2, L>(f: R -> Either<R2, L>, e: Either<R, L>): (r: Either<R2, L>)
    ensures e.Right? ==> r == f(e.right)
    ensures e.Left? ==> r == Left(e.left)
  {
    match e
    case Right(v) => f(v)
    case Left(v) => Left(v)
  }

  /** Right(f(a, b)) when both are Right, otherwise the first Left. */
  function ZipWith<R1, R2, R3, L>(e1: Either<R1, L>, e2: Either<R2, L>, f: (R1, R2) -> R3): (r: Either<R3, L>)
    ensures r.Right? <==> e1.Right? && e2.Right?
    ensures r.Right? ==> r.right == f(e1.right, e2.right)
    ensures e1.Left? ==> r == Left(e1.left)
    ensures e1.Right? && e2.Left? ==> r == Left(e2.left)
  {
    match e1
    case Right(a) =>
      (match e2
       case Right(b) => Right(f(a, b))
       case Left(l) => Left(l))
    case Left(l) => Left(l)
  }

  /** `all` over a list: Right of every value in order, or the first Left. */
  method All<R, L>(eithers: seq<Either<R, L>>) returns (r: Either<seq<R>, L>)
    ensures r.Right? <==> forall i | 0 <= i < |eithers| :: eithers[i].Right?
    ensures r.Right? ==> |r.right| == |eithers|
    ensures r.Right? ==> forall i | 0 <= i < |eithers| :: r.right[i] == eithers[i].right
    ensures r.Left? ==> exists k | 0 <= k < |eithers| ::
      eithers[k] == Left(r.left) && forall j | 0 <= j < k :: eithers[j].Right?
  {
    var values: seq<R> := [];
    for i := 0 to |eithers|
      invariant |values| == i
      invariant forall j | 0 <= j < i :: eithers[j].Right? && values[j] == eithers[j].right
    {
      match eithers[i]
      case Right(v) =>
        values := values + [v];
      case Left(l) =>
        return Left(l);
    }
    return Right(values);
  }

  /**
   * `all` over a dict, given as its items in insertion order: Right of the
   * same keys bound to the unwrapped values, or the first Left.
   */
  method AllItems<K, R, L>(eithers: seq<(K, Either<R, L>)>) returns (r: Either<seq<(K, R)>, L>)
    ensures r.Right? <==> forall i | 0 <= i < |eithers| :: eithers[i].1.Right?
    ensures r.Right? ==> |r.right| == |eithers|
    ensures r.Right? ==> forall i | 0 <= i < |eithers| :: r.right[i] == (eithers[i].0, eithers[i].1.right)
    ensures r.Left? ==> exists k | 0 <= k < |eithers| ::
      eithers[k].1 == Left(r.left) && forall j | 0 <= j < k :: eithers[j].1.Right?
  {
    var result: seq<(K, R)> := [];
    for i := 0 to |eithers|
      invariant |result| == i
      invariant forall j | 0 <= j < i ::
        eithers[j].1.Right? && result[j] == (eithers[j].0, eithers[j].1.right)
    {
      var (key, e) := eithers[i];
      if e.Right? {
        result := result + [(key, e.right)];
      } else {
        return Left(e.left);
      }
    }
    return Right(result);
  }
}
