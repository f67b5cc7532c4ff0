// The result of running an effect to completion: a success value or an
// error value.  Exits are immutable datatype values.

module Exits {

  datatype Exit<A, E> = ExitSuccess(value: A) | ExitFailure(error: E)

  /** `exit.succeed`: the success variant carrying exactly the value. */
  function Succeed<A, E>(value: A): (r: Exit<A, E>)
    ensures r.ExitSuccess? && r.value == value
  {
    ExitSuccess(value)
  }

  /** `exit.fail`: the failure variant carrying exactly the error. */
  function Fail<A, E>(error: E): (r: Exit<A, E>)
    ensures r.ExitFailure? && r.error == error
  {
    ExitFailure(error)
  }

  /** Every exit is exactly one of the two variants, and `succeed` and `fail` are injective. */
  lemma ExitVariants<A, E>(x: Exit<A, E>)
    ensures x.ExitSuccess? != x.ExitFailure?
    ensures x.ExitSuccess? ==> x == Succeed(x.value)
    ensures x.ExitFailure? ==> x == Fail(x.error)
  {
  }
}
