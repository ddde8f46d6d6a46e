/** Option and Result, the two failure-carrying wrappers used across the model. */
module Wrappers {

  datatype Option<+T> = None | Some(value: T) {
    function GetOr(default: T): T {
      match this
      case Some(v) => v
      case None => default
    }
  }

  /** What a Python exception in the modelled code would have been. */
  datatype Error =
    | KeyError        // dictionary or graph lookup of a missing key
    | IndexError      // list index out of range
    | TypeError       // None (or a non-number) used in arithmetic, or a bad keyword argument
    | ZeroDivision    // float division by zero

  datatype Result<+R> = Ok(value: R) | Err(error: Error)
}
