/** Failure-carrying results used throughout the model. */
module Wrappers {

  datatype Option<+T> = None | Some(value: T)

  /** The outcome of an operation that raises in the original program: `Err` is the exception. */
  datatype Result<+T, +E> = Ok(value: T) | Err(error: E)
}
