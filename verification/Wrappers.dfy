/** The two failure-aware wrappers used throughout the model. */
module Wrappers {

  datatype Option<+T> = None | Some(value: T)

  /** A computation that returns a value or raises. */
  datatype Result<+T, +E> = Ok(value: T) | Err(error: E)
}
