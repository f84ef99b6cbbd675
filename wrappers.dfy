/** Option and Result: the error paths of both scripts are values, not exceptions. */
module Wrappers {

  datatype Option<+T> = None | Some(value: T) {
    /** dict.get(key, default) and friends: the value, or the default when absent. */
    function GetOr(default: T): T {
      match this
      case Some(v) => v
      case None => default
    }
  }

  datatype Result<+R, +E> = Success(value: R) | Failure(error: E)
}
