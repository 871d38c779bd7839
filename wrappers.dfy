/** Option and Result values, standing for Rust's `Option` and `Result`. */
module Wrappers {

  /** Rust's `Option<T>`: a value or nothing. */
  datatype Option<+T> = None | Some(value: T)

  /** Rust's `Result<T, E>`: a value or an error. */
  datatype Result<+T, +E> = Ok(value: T) | Err(error: E)
}
