/** Optional values and results with an error, used for PHP's null and exceptions. */
module Wrappers {

  datatype Option<+T> = None | Some(value: T)

  /** A computation that returned a value or threw. */
  datatype Result<+T, +E> = Ok(value: T) | Err(error: E)
}
