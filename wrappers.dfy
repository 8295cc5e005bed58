/** Small failure-compatible wrapper shared by every module of the model. */
module Wrappers {

  /** A value that may be absent: a missing request parameter, a field that
      is null or undefined, a cache miss. */
  datatype Option<+T> = None | Some(value: T) {

    /** The value, or a default when there is none. */
    function GetOr(default: T): T {
      match this
      case Some(v) => v
      case None => default
    }
  }

  /** The outcome of an operation that may throw: a value or the error thrown. */
  datatype Result<+T, +E> = Success(value: T) | Failure(error: E)
}
