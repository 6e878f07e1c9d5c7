/** Option and Result, standing in for the source's `T | null` values and its error messages. */
module Wrappers {

  datatype Option<+T> = None | Some(value: T) {

    /** `x || default` for an optional value. */
    function GetOr(default: T): T {
      match this
      case Some(v) => v
      case None => default
    }
  }

  datatype Result<+R, +E> = Success(value: R) | Failure(error: E)
}
