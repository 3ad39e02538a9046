/** Optional values and error-carrying results, standing in for the
    `null`/`undefined` values and the thrown `Error`s of the application. */
module Wrappers {

  datatype Option<+T> = None | Some(value: T) {
    /** `x ?? d` */
    function GetOr(default: T): T {
      match this
      case Some(v) => v
      case None => default
    }
  }

  /** A computation that either yields a value or fails with the message
      that the application puts into the `Error` it throws. */
  datatype Result<+T> = Ok(value: T) | Err(message: string)
}
