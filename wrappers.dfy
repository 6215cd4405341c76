/** Option and Result, the failure-carrying values used throughout the model. */
module Wrappers {

  datatype Option<+T> = None | Some(value: T)

  /** `Result<R, E>` stands for Rust's `Result`; a `Failure` is an `Err` returned to the caller. */
  datatype Result<+R, +E> = Success(value: R) | Failure(error: E)
}
