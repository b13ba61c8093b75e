/** Optional values and success/failure results, standing for the source's
    `undefined`/`null` and its thrown errors. */
module Wrappers {

  datatype Option<+T> = None | Some(value: T) {
    /** `x ?? d` */
    function GetOr(default: T): T {
      match this
      case Some(v) => v
      case None => default
    }
  }

  /** A value, or the message of the error the source throws. */
  datatype Result<+T> = Success(value: T) | Failure(message: string)
}
