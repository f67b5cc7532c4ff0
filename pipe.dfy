// Left-to-right function application: `pipe(v, f1, ..., fn)` feeds v to f1,
// its result to f2, and so on.

module Pipe {

  /** The specification: apply the functions to the value from left to right. */
  function ApplyAll<T>(value: T, fns: seq<T -> T>): T
    decreases |fns|
  {
    if fns == [] then value else ApplyAll(fns[0](value), fns[1..])
  }

  /** `pipe`: threads a running result through every function in turn. */
  method Pipe<T>(value: T, fns: seq<T -> T>) returns (r: T)
    ensures r == ApplyAll(value, fns)
  {
    r := value;
    for i := 0 to |fns|
      invariant ApplyAll(value, fns) == ApplyAll(r, fns[i..])
    {
      assert fns[i..][1..] == fns[i + 1..];
      r := fns[i](r);
    }
    assert fns[|fns|..] == [];
  }

  lemma PipeNoFunctions<T>(value: T)
    ensures ApplyAll(value, []) == value
  {
  }

  lemma PipeOneFunction<T>(value: T, f: T -> T)
    ensures ApplyAll(value, [f]) == f(value)
  {
  }

  /** Piping through fs and then gs is piping through their concatenation. */
  lemma {:induction false} PipeAppend<T>(value: T, fs: seq<T -> T>, gs: seq<T -> T>)
    ensures ApplyAll(value, fs + gs) == ApplyAll(ApplyAll(value, fs), gs)
    decreases |fs|
  {
    if fs == [] {
      assert fs + gs == gs;
    } else {
      assert (fs + gs)[1..] == fs[1..] + gs;
      PipeAppend(fs[0](value), fs[1..], gs);
    }
  }

  /** The last function is applied to the result of all earlier ones. */
  lemma PipeLast<T>(value: T, fs: seq<T -> T>, g: T -> T)
    ensures ApplyAll(value, fs + [g]) == g(ApplyAll(value, fs))
  {
    PipeAppend(value, fs, [g]);
  }
}
