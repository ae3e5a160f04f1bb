/** Absent values and error returns shared by every module of the storefront model. */
module Wrappers {

  /** A value that may be absent: JavaScript's `null` / `undefined` results. */
  datatype Option<+T> = None | Some(value: T) {
    function GetOr(default: T): T {
      match this
      case Some(v) => v
      case None => default
    }
  }

  /** The success/failure shape that `safeParse` and the strict parsers return. */
  datatype Result<+T, +E> = Success(data: T) | Failure(error: E)
}
