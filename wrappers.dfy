/** Option and Result, the two failure-carrying datatypes the model uses. */
module Wrappers {

  /** An optional value: a JavaScript property that may be `undefined` or `null`. */
  datatype Option<+T> = None | Some(value: T) {
    function GetOr(default: T): T {
      match this
      case Some(v) => v
      case None => default
    }
  }

  /** A value or an error: a JavaScript function that may throw. */
  datatype Result<+R, +E> = Ok(value: R) | Err(error: E)
}
