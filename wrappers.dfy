/** Optional values and success/failure results, used across the model. */
module Wrappers {

  /** A value that may be absent, as a Python `None` or a missing session key. */
  datatype Option<+T> = None | Some(value: T)

  /** The outcome of a step that either succeeds or fails with an error. */
  datatype Result<+T, +E> = Ok(value: T) | Err(error: E)
}
