/** Failure-compatible wrappers: `Option` for the source's `undefined`/`null`,
    `Result` for a value or the text of a thrown error, `Outcome` for a call
    that either returns nothing or throws. */
module Wrappers {

  datatype Option<+T> = None | Some(value: T) {
    function GetOr(default: T): T {
      match this
      case Some(v) => v
      case None => default
    }
  }

  datatype Result<+R, +E> = Success(value: R) | Failure(error: E)

  datatype Outcome<+E> = Pass | Fail(error: E)
}
