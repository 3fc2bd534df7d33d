/** Optional values and results with an error channel, used throughout the model. */
module Wrappers {

  /** A value that may be missing (Kotlin's nullable types). */
  datatype Option<+T> = None | Some(value: T)

  /** Either a value or the error the source would throw. */
  datatype Result<+T, +E> = Ok(value: T) | Err(error: E)
}
