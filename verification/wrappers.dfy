/** Optional values and outcomes that carry an error message. */
module Wrappers {

  datatype Option<+T> = None | Some(value: T) {
    function GetOr(default: T): T {
      match this
      case Some(v) => v
      case None => default
    }
  }

  /** A JavaScript call that either returns a value or throws an `Error` with a message. */
  datatype Result<+T> = Success(value: T) | Failure(message: string)
}
