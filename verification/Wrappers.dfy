// Shared result types: a value that may be absent, and an outcome that may be an error.
module Wrappers {
  datatype Option<+T> = None | Some(value: T)

  /** The source raises an exception; here the caller sees `Err`. */
  datatype Result<+T, +E> = Ok(value: T) | Err(error: E)
}
