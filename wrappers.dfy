/** Option and Result, for lookups that may find nothing and calls that may throw. */
module Wrappers {

  datatype Option<+T> = None | Some(value: T)

  /** The outcome of a call that either returns a value or throws an Error carrying a message. */
  datatype Result<+T, +E> = Ok(value: T) | Err(error: E)
}
