/** Option and Result: absent values and failures as data. */
module Wrappers {

  datatype Option<+T> = None | Some(value: T) {
    function GetOr(default: T): T {
      match this
      case Some(v) => v
      case None => default
    }
  }

  /** A computation that produced a value or failed with an error (a raised exception). */
  datatype Result<+T, +E> = Ok(value: T) | Err(error: E)
}
