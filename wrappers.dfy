/** Option and Result, the two failure-carrying wrappers the model needs. */
module Wrappers {

  /** A value that may be absent (Rust's Option). */
  datatype Option<+T> = None | Some(value: T)

  /** A value or an error (Rust's Result / anyhow::Result). */
  datatype Result<+R, +E> = Success(value: R) | Failure(error: E)
}
