/** Failure-compatible wrappers used across the model: a C pointer that may be
    NULL becomes an `Option`, and a step that may end the process with an exit
    status becomes a `Result`. */
module Wrappers {

  /** `None` plays the part of a NULL pointer. */
  datatype Option<+T> = None | Some(value: T)

  /** `Failure` carries the exit status the process terminates with. */
  datatype Result<+R, +E> = Success(value: R) | Failure(error: E) {

    predicate IsFailure() {
      Failure?
    }

    function PropagateFailure<U>(): Result<U, E>
      requires Failure?
    {
      Failure(error)
    }

    function Extract(): R
      requires Success?
    {
      value
    }
  }
}
