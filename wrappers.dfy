/** Optional values and error-carrying results, used where the source returns
    None or raises an exception that a caller turns into a message. */
module Wrappers {

  datatype Option<+T> = None | Some(value: T) {
    function GetOr(default: T): T {
      match this
      case Some(v) => v
      case None => default
    }
  }

  /** `Failure` carries the text that `str(e)` would give for the raised exception. */
  datatype Result<+T> = Success(value: T) | Failure(error: string)
}
