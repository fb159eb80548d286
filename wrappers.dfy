/** Optional values and results with an error payload. */
module Wrappers {

  /** A value that may be absent (`undefined` / `null` in the source). */
  datatype Option<+T> = None | Some(value: T)

  /** The outcome of an operation that can throw: a value, or the thrown error. */
  datatype Result<+T, +E> = Ok(value: T) | Err(error: E)
}
