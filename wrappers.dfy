/** Optional values and error outcomes used across the model. */
module Wrappers {

  /** A value that may be absent (JavaScript's `undefined` / `null` / falsy). */
  datatype Option<+T> = None | Some(value: T)

  /** A successful value or an error. */
  datatype Result<+T, +E> = Ok(value: T) | Err(error: E)
}
