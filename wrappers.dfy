/** Optional values and results with an error, as used across the model. */
module Wrappers {

  /** A value that may be absent: JavaScript `undefined` is `None`. */
  datatype Option<+T> = None | Some(value: T) {
    /** The value, or `default` when it is absent (a destructuring default). */
    function GetOr(default: T): T {
      match this
      case Some(v) => v
      case None => default
    }
  }

  /** The outcome of code that either returns a value or throws. */
  datatype Result<+R, +E> = Success(value: R) | Failure(error: E)
}
