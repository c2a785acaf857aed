/** Option and Result, for the source's nullable fields and its construction error. */
module Wrappers {

  datatype Option<+T> = None | Some(value: T) {
    /** Python's `x or default` on an optional number. */
    function GetOr(default: T): T {
      match this
      case Some(v) => v
      case None => default
    }
  }

  datatype Result<+R, +E> = Success(value: R) | Failure(error: E)
}
