/** Optional values and success-or-error results, standing in for Python's
    `None` and for raised exceptions. */
module Wrappers {

  datatype Option<+T> = None | Some(value: T) {
    /** The wrapped value, or `default` when there is none. */
    function GetOr(default: T): T {
      match this
      case Some(v) => v
      case None => default
    }
  }

  /** Either a value (`Ok`) or the message of the exception that was raised (`Err`). */
  datatype Result<+T> = Ok(value: T) | Err(error: string)

  /** A validator that returns nothing on success and raises on failure. */
  datatype Outcome = Pass | Fail(error: string)
}
