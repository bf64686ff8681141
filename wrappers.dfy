/** Result types for the error paths of the model. */
module Wrappers {

  datatype Option<+T> = None | Some(value: T)

  /** A computation that either yields a value or fails with an error. */
  datatype Result<+T, +E> = Ok(value: T) | Err(error: E)

  /** A state change that either happened or failed with an error. */
  datatype Outcome<+E> = Pass | Fail(error: E)
}
