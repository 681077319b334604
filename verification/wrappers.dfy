/** Failure-compatible wrappers used throughout the model: an optional value
    and a result that carries either a value or an error message. */
module Wrappers {

  datatype Option<+T> = None | Some(value: T) {

    /** The wrapped value, or `default` when there is none. */
    function GetOr(default: T): T {
      match this
      case Some(v) => v
      case None => default
    }
  }

  /** A computation that either succeeds with a value or fails with the
      message the source's exception would carry (`str(e)`). */
  datatype Result<+R> = Success(value: R) | Failure(error: string)
}
