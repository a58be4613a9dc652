/** Option and Result, the failure-compatible wrappers used for C# null and for thrown exceptions. */
module Wrappers {

  /** A value that may be C#'s null. */
  datatype Option<+T> = None | Some(value: T)

  /** Either a returned value or a thrown exception. */
  datatype Result<+R, +E> = Success(value: R) | Failure(error: E) {

    predicate IsFailure() {
      Failure?
    }

    function PropagateFailure<U>(): Result<U, E>
      requires Failure?
    {
      Failure(error)
    }

    function Extract(): R
      requires Success?
    {
      value
    }
  }
}
