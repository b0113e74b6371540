/** Option and Result, the two failure-carrying shapes every other module uses. */
module Wrappers {

  /** An optional value: Go's nil pointer is None. */
  datatype Option<+T> = None | Some(value: T)

  /** A value or an error: Go's (value, error) pair where exactly one is meaningful. */
  datatype Result<+T, +E> = Ok(value: T) | Err(error: E)
}
