/** Option and Result, for the source's `undefined` values and thrown exceptions. */
module Wrappers {

  datatype Option<+T> = None | Some(value: T)

  /** An operation that either completes with a value or stops with the error it throws. */
  datatype Result<+T, +E> = Ok(value: T) | Err(error: E)
}
