/** Optional values and results with an error, used for the nullable columns and the
    exceptions of the transform. */
module Wrappers {
  datatype Option<+T> = None | Some(value: T)

  datatype Result<+T, +E> = Ok(value: T) | Err(error: E)
}
