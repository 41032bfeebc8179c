/** Optional values and results shared by every module of the model. */
module Wrappers {

  /** PHP's nullable values: `null` is None. */
  datatype Option<+T> = None | Some(value: T) {
    /** The value, or `default` when absent (PHP's `??`). */
    function GetOr(default: T): T {
      match this
      case Some(v) => v
      case None => default
    }
  }

  /** A value, or the exception an operation throws instead. */
  datatype Result<+R, +E> = Success(value: R) | Failure(error: E)
}
