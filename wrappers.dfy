/** Option and Result, the failure-compatible wrappers the model uses for
    JavaScript's `undefined` results and thrown exceptions. */
module Wrappers {

  datatype Option<+T> = None | Some(value: T)

  /** The outcome of a computation that may throw: `Success` carries the
      value it produced, `Failure` the exception it raised. */
  datatype Result<+T, +E> = Success(value: T) | Failure(error: E) {

    predicate IsFailure() {
      Failure?
    }

    function PropagateFailure<U>(): Result<U, E>
      requires Failure?
    {
      Failure(error)
    }

    function Extract(): T
      requires Success?
    {
      value
    }

    /** What a `catch` block that returns `fallback` leaves of this outcome. */
    function GetOr(fallback: T): T {
      match this
      case Success(v) => v
      case Failure(_) => fallback
    }
  }
}
