/** Option and Result, the two failure-carrying shapes the model needs. */
module Wrappers {

  /** Rust's Option<T>. */
  datatype Option<T> = None | Some(value: T)

  /** A computation that either yields a value or fails with an error. */
  datatype Result<T, E> = Ok(value: T) | Err(error: E)
}
