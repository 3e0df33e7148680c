/** Optional values and results with an error, as used by every service module. */
module Wrappers {

  /** A value that may be absent (`undefined`/`null` in the services). */
  datatype Option<+T> = None | Some(value: T)

  /** The outcome of an operation that either returns a value or throws. */
  datatype Result<+T, +E> = Ok(value: T) | Err(error: E)
}
