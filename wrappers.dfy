/** Optional values and error-or-value results, shared by every other module. */
module Wrappers {

  /** A value that may be absent: a nullable column, an optional request field. */
  datatype Option<+T> = None | Some(value: T)

  /** The outcome of an operation that can fail with an error of type E. */
  datatype Result<+T, +E> = Ok(value: T) | Err(error: E)
}
