/** Failure-compatible wrappers used for the exceptions of the routing library. */
module Wrappers {

  datatype Option<+T> = None | Some(value: T)

  /** Either a value or the error the C# code would have thrown. */
  datatype Result<+T, +E> = Success(value: T) | Failure(error: E) {

    predicate IsFailure() {
      Failure?
    }

    function PropagateFailure<U>(): Result<U, E>
      requires Failure?
    {
      Failure(error)
    }

    function Extract(): T
      requires Success?
    {
      value
    }
  }
}
