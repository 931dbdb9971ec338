/** Optional values (a missing dictionary key, a NaN cell, an absent attribute)
    and results that are either a value or an `{'error': ...}` message. */
module Wrappers {
  datatype Option<+T> = None | Some(value: T) {
    function GetOr(default: T): T {
      match this
      case Some(v) => v
      case None => default
    }
  }

  datatype Result<+T> = Success(value: T) | Failure(error: string)
}
