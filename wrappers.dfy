/** Failure-compatible wrappers shared by every module of the model. */
module Wrappers {

  /** A value that may be absent; in the JavaScript model `None` stands for `undefined`. */
  datatype Option<+T> = None | Some(value: T)

  /** The outcome of a step that either produces a value or throws / rejects with an error. */
  datatype Result<+T, +E> = Success(value: T) | Failure(error: E) {
    predicate IsFailure() {
      Failure?
    }

    function PropagateFailure<U>(): Result<U, E>
      requires Failure?
    {
      Failure(error)
    }

    function Extract(): T
      requires Success?
    {
      value
    }
  }
}
