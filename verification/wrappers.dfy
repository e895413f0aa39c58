/** Failure-carrying values shared by every module of the model. */
module Wrappers {

  /** A value that may be missing (JavaScript `null`/`undefined` where the source returns one). */
  datatype Option<+T> = None | Some(value: T) {
    function GetOr(default: T): T {
      match this
      case Some(v) => v
      case None => default
    }
  }

  /** The outcome of an operation that can throw: either a value or the error it throws. */
  datatype Result<+T, +E> = Ok(value: T) | Err(error: E)
}
