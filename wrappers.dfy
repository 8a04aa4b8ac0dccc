/** Option and Result, used where the JavaScript code returns null / undefined or throws. */
module Wrappers {

  datatype Option<+T> = None | Some(value: T) {
    /** The value, or the given default when absent (JavaScript destructuring defaults). */
    function GetOr(default: T): T {
      match this
      case Some(v) => v
      case None => default
    }
  }

  /** Success carries a value; Failure carries the message of the Error the source throws. */
  datatype Result<+R> = Success(value: R) | Failure(error: string)
}
