/** Optional values and results: Go's nil error and its (value, error) return pairs. */
module Wrappers {

  /** None stands for Go's nil. */
  datatype Option<+T> = None | Some(value: T) {
    function GetOr(default: T): T {
      match this
      case Some(v) => v
      case None => default
    }
  }

  /** A provider call that yields either a value or an error. */
  datatype Result<+R, +E> = Success(value: R) | Failure(error: E)
}
