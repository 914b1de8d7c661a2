// Failure-carrying values used across the model: Python's None and raised exceptions.

module Wrappers {

  /** `None` stands for Python's `None` (or a missing dictionary key). */
  datatype Option<+T> = None | Some(value: T) {
    function GetOr(default: T): T {
      match this
      case Some(v) => v
      case None => default
    }
  }

  /** A call that either returns a value or raises. */
  datatype Result<+R, +E> = Ok(value: R) | Err(error: E)
}
