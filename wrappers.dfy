/** The optional-value and result types shared by every service module. */
module Wrappers {

  datatype Option<+T> = None | Some(value: T) {
    function GetOr(default: T): T {
      match this
      case Some(v) => v
      case None => default
    }
  }

  /** The outcome of a service call: its response, or the error it throws. */
  datatype Result<+T, +E> = Ok(value: T) | Err(error: E)
}
