/** Optional values and results with an error, used for the source's NaN cells and raised exceptions. */
module Wrappers {

  /** A value that may be missing (a NaN cell of a data frame). */
  datatype Option<+T> = None | Some(value: T)

  /** The outcome of an operation that either returns a value or raises an error. */
  datatype Result<+T, +E> = Ok(value: T) | Err(error: E)
}
