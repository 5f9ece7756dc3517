/** Optional values and success/error results shared by the model. */
module Wrappers {

  /** A value that may be missing: `null` in the program, `None` here. */
  datatype Option<+T> = None | Some(value: T)

  /** The outcome of an operation that can fail with an error `E`. */
  datatype Result<+T, +E> = Ok(value: T) | Err(error: E)
}
