/** Failure-compatible result types shared by the agent models. */
module Wrappers {

  /** A value that may be absent (an OS reading that failed, a kind index out of range). */
  datatype Option<+T> = None | Some(value: T)

  /** The outcome of an operation that throws in the agent code:
      either a value or the error the exception carries. */
  datatype Result<+T, +E> = Success(value: T) | Failure(error: E) {

    predicate IsFailure() {
      Failure?
    }

    function PropagateFailure<U>(): Result<U, E>
      requires Failure?
    {
      Failure(error)
    }

    function Extract(): T
      requires Success?
    {
      value
    }
  }
}
