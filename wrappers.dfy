/** Failure-carrying wrappers used to model Python's `None` and its raised exceptions. */
module Wrappers {

  /** A value that may be absent (Python's `Optional`). */
  datatype Option<+T> = None | Some(value: T) {
    function GetOr(default: T): T {
      match this
      case Some(v) => v
      case None => default
    }
  }

  /** The value a Python call returns, or the exception it raises. */
  datatype Result<+T, +E> = Success(value: T) | Failure(error: E)

  /** A Python call that returns nothing useful (`-> None`), or the exception it raises. */
  datatype Outcome<+E> = Pass | Fail(error: E)
}
