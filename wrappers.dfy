/** Option and Result values, used for the source's None and for its raised exceptions. */
module Wrappers {

  /** `None` stands for Python's `None`, `Some(v)` for a value. */
  datatype Option<T> = None | Some(value: T)

  /** A computation that either produces a value or raises an error. */
  datatype Result<T, E> = Success(value: T) | Failure(error: E) {

    predicate IsFailure() {
      Failure?
    }

    function PropagateFailure<U>(): Result<U, E>
      requires Failure?
    {
      Failure(error)
    }

    function Extract(): T
      requires Success?
    {
      value
    }
  }
}
