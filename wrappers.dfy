/** Optional values and string-carrying results, used in place of JavaScript's
    `undefined` and of thrown `Error`s. */
module Wrappers {

  datatype Option<T> = None | Some(value: T) {
    function GetOr(default: T): T {
      match this
      case Some(v) => v
      case None => default
    }
  }

  /** A value, or the `message` of the `Error` the JavaScript code would throw. */
  datatype Result<T> = Ok(value: T) | Err(error: string)
}
