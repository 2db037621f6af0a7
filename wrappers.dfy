/** Absent-or-present values and success-or-failure outcomes, standing for
    JavaScript's `undefined`/`null` and for thrown exceptions. */
module Wrappers {

  /** `None` models an absent (`undefined`) or `null` value. */
  datatype Option<+T> = None | Some(value: T) {
    function GetOr(default: T): T {
      match this
      case Some(v) => v
      case None => default
    }
  }

  /** `Err` models an exception that escapes to the caller. */
  datatype Result<+T, +E> = Ok(value: T) | Err(error: E)
}
