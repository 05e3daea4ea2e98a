/** Failure-compatible wrappers used throughout the model: an optional value
    (a Notion property wrapper that may be empty) and a result that carries
    either a value or one of the errors the Python code raises. */
module Wrappers {

  /** An optional value; `None` stands for a falsy (`None` or `{}`) wrapper. */
  datatype Option<+T> = None | Some(value: T)

  /** Either a computed value or the error that aborted the computation. */
  datatype Result<+R, +E> = Success(value: R) | Failure(error: E) {

    predicate IsFailure() {
      Failure?
    }

    function PropagateFailure<U>(): Result<U, E>
      requires Failure?
    {
      Failure(error)
    }

    function Extract(): R
      requires Success?
    {
      value
    }
  }
}
