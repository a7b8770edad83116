/** Option and Result, the two failure-carrying types the sensor code returns. */
module Wrappers {

  datatype Option<+T> = None | Some(value: T)

  /** Rust's `Result<T, E>`: `Ok` carries a value, `Err` an error. */
  datatype Result<+T, +E> = Ok(value: T) | Err(error: E)
}
