/** Failure-carrying datatypes shared by the whole model. */
module Wrappers {

  /** A value that may be absent (a JavaScript `undefined` or `null`). */
  datatype Option<+T> = None | Some(value: T) {

    /** The wrapped value, or `default` when absent (JavaScript's `x || d` on a defined `x`). */
    function GetOr(default: T): T {
      match this
      case Some(v) => v
      case None => default
    }
  }

  /** The outcome of an operation that either succeeds with a value or throws. */
  datatype Result<+R, +E> = Success(value: R) | Failure(error: E) {

    predicate IsFailure() {
      Failure?
    }
  }
}
