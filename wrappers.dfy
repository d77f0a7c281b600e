/** Option and Result values for the nullable fields and error returns of the app. */
module Wrappers {

  datatype Option<+T> = None | Some(value: T) {
    function GetOr(default: T): T {
      match this
      case Some(v) => v
      case None => default
    }
  }

  /** The value or error of a backend call or of a parse. */
  datatype Result<+R, +E> = Ok(value: R) | Err(error: E)

  /** A backend call that returns no row: it either succeeds or fails with a message. */
  datatype Outcome = Success | Failure(message: string)
}
