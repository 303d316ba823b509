/** Option and Result, the failure-carrying wrappers the rest of the model uses. */
module Wrappers {

  /** A value that may be missing: PHP's `null` where the source returns `?T`. */
  datatype Option<+T> = None | Some(value: T) {

    /** The value, or `default` when there is none (PHP's `??`). */
    function GetOr(default: T): T {
      match this
      case Some(v) => v
      case None => default
    }
  }

  /** The outcome of an operation that may throw: a value or the exception raised. */
  datatype Result<+T, +E> = Success(value: T) | Failure(error: E)
}
