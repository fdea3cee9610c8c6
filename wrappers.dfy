/** The two wrappers used across the model: an optional value (JavaScript's
    null/undefined) and a success-or-error outcome of a backend call. */
module Wrappers {

  datatype Option<+T> = None | Some(value: T) {
    function GetOr(default: T): T {
      match this
      case Some(v) => v
      case None => default
    }
  }

  datatype Result<+R, +E> = Success(value: R) | Failure(error: E)
}
