/** Optional values and the outcome of a call into code outside the model
    (an HTTP request, a storage access). */
module Wrappers {

  /** A JavaScript value that may be `null` or `undefined`. */
  datatype Option<+T> = None | Some(value: T) {
    function GetOr(default: T): T {
      match this
      case Some(v) => v
      case None => default
    }
  }

  /** The settled state of an awaited promise: resolved with a value, or rejected. */
  datatype Outcome<+T> = Ok(value: T) | Fail

  /** A property of a JSON payload: left out of the object (`undefined`),
      sent as `null`, or sent with a value. */
  datatype Field<+T> = Omitted | Null | Present(value: T)
}
