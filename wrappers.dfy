/** Optional values and results with an error, used where the source has `null` or throws. */
module Wrappers {

  /** A value that may be absent (the source's `T | null` and `T | undefined`). */
  datatype Option<+T> = None | Some(value: T)

  /** The outcome of an operation that may throw. */
  datatype Result<+T, +E> = Ok(value: T) | Err(error: E)
}
