/** Option and Result: a missing value (JavaScript `null`/`undefined`) and an
    operation that either succeeds or throws an error with a message. */
module Wrappers {

  datatype Option<+T> = None | Some(value: T) {
    function GetOr(default: T): T {
      match this
      case Some(v) => v
      case None => default
    }
  }

  /** `Err` carries the message of the `Error` the source throws. */
  datatype Result<+T> = Ok(value: T) | Err(error: string)
}
