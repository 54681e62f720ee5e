/** Failure-carrying values shared by every module of the model. */
module Wrappers {

  /** A value that may be absent (TypeScript's `T | undefined`, Python's `Optional[T]`). */
  datatype Option<+T> = None | Some(value: T) {
    function GetOr(default: T): T {
      match this
      case Some(v) => v
      case None => default
    }
  }

  /** A computation that either produced a value or threw an error. */
  datatype Result<+T, +E> = Ok(value: T) | Err(error: E)
}
