/** Option and Result: Ruby's nil and raised exceptions, made explicit. */
module Wrappers {

  /** A value that may be nil. */
  datatype Option<+T> = None | Some(value: T)

  /** A computation that either yields a value or raises an error. */
  datatype Result<+T, +E> = Ok(value: T) | Err(error: E)
}
