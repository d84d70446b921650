/** Value wrappers shared by the model: Rust's Option and Result, and an
    Outcome that separates a normal return from a panic. */
module Wrappers {

  /** Rust's `Option<T>`. */
  datatype Option<+T> = None | Some(value: T)

  /** Rust's `Result<T, E>`: a recoverable error is an ordinary value. */
  datatype Result<+T, +E> = Ok(value: T) | Err(error: E)

  /** How a call ends: it returns a value, or it panics with a message.
      A panic is not a value the caller can inspect and carry on with; it is
      kept apart from `Result` so that "returns an error" and "panics" can
      both be stated and told apart. */
  datatype Outcome<+T> = Returned(value: T) | Panicked(message: string)
}
