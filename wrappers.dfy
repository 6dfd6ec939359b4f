/** Failure-compatible wrappers used throughout the model: a value that may be
    absent (Python's None) and the outcome of an operation that may raise. */
module Wrappers {

  datatype Option<+T> = None | Some(value: T) {
    function GetOr(default: T): T {
      match this
      case Some(v) => v
      case None => default
    }
  }

  datatype Result<+T, +E> = Ok(value: T) | Err(error: E)
}
