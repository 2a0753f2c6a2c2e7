/** Option and Result, the two failure-carrying values used throughout the model. */
module Wrappers {

  /** A value that may be absent (Python's `None`, an empty XPath result, a failed request). */
  datatype Option<+T> = None | Some(value: T)

  /** A value or the error that Python would have raised instead. */
  datatype Result<+T, +E> = Ok(value: T) | Err(error: E)
}
