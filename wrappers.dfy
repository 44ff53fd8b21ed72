/** Optional values and error returns shared by the coordination and team modules. */
module Wrappers {

  /** A value that may be missing (`None` in the Python code). */
  datatype Option<+T> = None | Some(value: T)

  /** Either a value or the error that stands for a raised exception. */
  datatype Result<+T, +E> = Ok(value: T) | Err(error: E)
}
