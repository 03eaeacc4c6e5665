/** Option and Result: Go's nil and its `(value, error)` returns. */
module Wrappers {

  /** An optional value; `None` stands for Go's `nil`. */
  datatype Option<+T> = None | Some(value: T) {
    function GetOr(default: T): T {
      match this
      case Some(v) => v
      case None => default
    }
  }

  /** A value or an error, for Go functions that return `(T, error)`. */
  datatype Result<+T, +E> = Success(value: T) | Failure(error: E)
}
