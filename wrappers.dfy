/** Optional values and results with an error, as used throughout the model. */
module Wrappers {

  /** A value that may be absent: an unset prop, a falsy entry of a style array. */
  datatype Option<+T> = None | Some(value: T) {

    /** The value, or `default` when absent (the `??` / default-parameter pattern). */
    function GetOr(default: T): T {
      match this
      case Some(v) => v
      case None => default
    }
  }

  /** The outcome of a call that may throw. */
  datatype Result<+R, +E> = Success(value: R) | Failure(error: E)
}
