/** Optional values and results with an error, shared by every module of the model. */
module Wrappers {
  /** A value that may be absent (`null`/`undefined` in the original code, `Optional` in Java). */
  datatype Option<T> = None | Some(value: T)

  /** The outcome of an operation that may throw: `Err` carries the exception that would be raised. */
  datatype Result<T, E> = Ok(value: T) | Err(error: E)
}
