/** The outcome of an operation that either yields a value or raises an error. */
module Wrappers {

  datatype Result<+T, +E> = Ok(value: T) | Err(error: E)
}
