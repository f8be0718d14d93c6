/** Option and Result, the two failure-carrying datatypes used across the model. */
module Wrappers {

  /** An optional value: `None` stands for JavaScript's `undefined` (an absent field). */
  datatype Option<+T> = None | Some(value: T) {
    function GetOr(default: T): T {
      match this
      case Some(v) => v
      case None => default
    }
  }

  /** The outcome of a call that may throw: `Failure` carries the error message. */
  datatype Result<+R, +E> = Success(value: R) | Failure(error: E)
}
