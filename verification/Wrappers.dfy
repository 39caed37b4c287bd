/** The two result shapes used throughout the model. */
module Wrappers {

  /** A value that may be absent: Python's None, or SQL's NULL. */
  datatype Option<+T> = None | Some(value: T) {
    function GetOr(default: T): T {
      match this
      case Some(v) => v
      case None => default
    }
  }

  /** The normal return of an operation, or the exception it raises. */
  datatype Result<+T, +E> = Ok(value: T) | Err(error: E)
}
