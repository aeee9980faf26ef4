/** Option and Result values used wherever the source returns None, raises, or falls back. */
module Wrappers {

  datatype Option<+T> = None | Some(value: T) {

    /** Returns the wrapped value, or `default` when there is none (Python's `x or default`). */
    function GetOr(default: T): T {
      match this
      case Some(v) => v
      case None => default
    }
  }

  datatype Result<+R, +E> = Success(value: R) | Failure(error: E)
}
