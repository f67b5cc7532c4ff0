// Contexts: immutable maps from service tags to service implementations.
// Every operation builds a new map; none changes its argument.

module Contexts {
  import opened Options
  import opened Values

  type Context = map<Tag, Value>

  /** `context.get`: the bound implementation, or MissingServiceError for the tag. */
  function Get(ctx: Context, tag: Tag): (r: Call<Value>)
    ensures r.Returns? <==> tag in ctx
    ensures r.Returns? ==> r.value == ctx[tag]
    ensures r.Throws? ==> r.exn == MissingService(tag)
  {
    if tag in ctx then Returns(ctx[tag]) else Throws(MissingService(tag))
  }

  /** `context.empty`: binds no tag. */
  function Empty(): (c: Context)
    ensures c.Keys == {}
  {
    map[]
  }

  /** `context.make`: the pairs inserted in order, as `dict(args)` does. */
  function Make(pairs: seq<(Tag, Value)>): Context
    decreases |pairs|
  {
    if pairs == [] then map[]
    else
      var last := pairs[|pairs| - 1];
      Make(pairs[..|pairs| - 1])[last.0 := last.1]
  }

  /** A tag is bound by `make` exactly when some pair names it. */
  lemma {:induction false} MakeDomain(pairs: seq<(Tag, Value)>, tag: Tag)
    ensures tag in Make(pairs) <==> exists i | 0 <= i < |pairs| :: pairs[i].0 == tag
    decreases |pairs|
  {
    if pairs != [] {
      var init := pairs[..|pairs| - 1];
      MakeDomain(init, tag);
      if tag in Make(init) {
        var i :| 0 <= i < |init| && init[i].0 == tag;
        assert pairs[i].0 == tag;
      }
      if exists i | 0 <= i < |pairs| :: pairs[i].0 == tag {
        var i :| 0 <= i < |pairs| && pairs[i].0 == tag;
        if i < |init| {
          assert init[i].0 == tag;
        }
      }
    }
  }

  /** `get(make(pairs), t)` is the instance of the last pair naming t: a later duplicate wins. */
  lemma {:induction false} MakeLastWins(pairs: seq<(Tag, Value)>, i: nat)
    requires i < |pairs|
    requires forall j | i < j < |pairs| :: pairs[j].0 != pairs[i].0
    ensures Get(Make(pairs), pairs[i].0) == Returns(pairs[i].1)
    decreases |pairs|
  {
    var init := pairs[..|pairs| - 1];
    if i < |pairs| - 1 {
      assert forall j | i < j < |init| :: init[j] == pairs[j];
      MakeLastWins(init, i);
    }
  }

  /** `context.make` of tags no pair names: missing. */
  lemma MakeMissing(pairs: seq<(Tag, Value)>, tag: Tag)
    requires forall i | 0 <= i < |pairs| :: pairs[i].0 != tag
    ensures Get(Make(pairs), tag) == Throws(MissingService(tag))
  {
    MakeDomain(pairs, tag);
  }

  /** `context.add(tag, impl)(ctx)`: binds the tag, keeps every other binding. */
  function Add(tag: Tag, impl: Value, ctx: Context): (r: Context)
    ensures tag in r && r[tag] == impl
    ensures forall t | t != tag :: (t in r <==> t in ctx) && (t in r ==> r[t] == ctx[t])
  {
    ctx[tag := impl]
  }

  /**
   * `context.merge(a, b)`: every binding of both, where b's binding wins
   * on a tag both bind.
   */
  function Merge(a: Context, b: Context): (r: Context)
    ensures forall t :: t in r <==> t in a || t in b
    ensures forall t | t in r :: r[t] == if t in b then b[t] else a[t]
  {
    a + b
  }

  lemma MergeEmpty(a: Context)
    ensures Merge(a, Empty()) == a && Merge(Empty(), a) == a
  {
  }

  /** Merging is associative, so nested Provide nodes compose. */
  lemma MergeAssociative(a: Context, b: Context, c: Context)
    ensures Merge(Merge(a, b), c) == Merge(a, Merge(b, c))
  {
  }
}
