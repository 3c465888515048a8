/** Failure-carrying results shared by every module of the model. */
module Outcomes {

  /** A value that may be absent (Python's `None`). */
  datatype Option<+T> = None | Some(value: T)

  /** The outcome of an operation that either succeeds with a value or is refused with a typed error. */
  datatype Result<+T, +E> = Ok(value: T) | Err(error: E)
}
