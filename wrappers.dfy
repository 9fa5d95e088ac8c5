/** Option and Result values for the runner's optional lookups and error paths. */
module Wrappers {

  datatype Option<+T> = None | Some(value: T)

  /** An operation that either produces a value or stops with an error. */
  datatype Result<+T, +E> = Ok(value: T) | Err(error: E)
}
