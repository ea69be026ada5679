/** Option and Result: `null`/`undefined` and thrown errors, as values. */
module Wrappers {

  /** A JavaScript value that may be `null` or `undefined` (None). */
  datatype Option<+T> = None | Some(value: T) {
    /** The value, or `default` when missing (JavaScript's `x ?? default`). */
    function GetOr(default: T): T {
      match this
      case Some(v) => v
      case None => default
    }
  }

  /** The outcome of an operation that may throw: the value, or the error's message. */
  datatype Result<+R, +E> = Success(value: R) | Failure(error: E)
}
