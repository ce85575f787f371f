/** Failure-compatible wrappers used for the null returns and thrown exceptions of the source. */
module Wrappers {

  /** A value or nothing: the C# `char?` and nullable references. */
  datatype Option<+T> = None | Some(value: T)

  /** A value or an error: an operation that returns normally or throws. */
  datatype Result<+T, +E> = Success(value: T) | Failure(error: E) {

    predicate IsFailure() {
      Failure?
    }

    function PropagateFailure<U>(): Result<U, E>
      requires Failure?
    {
      Failure(error)
    }

    function Extract(): T
      requires Success?
    {
      value
    }
  }
}
