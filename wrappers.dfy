/** Option and Result, the failure-carrying values used throughout the model. */
module Wrappers {

  datatype Option<+T> = None | Some(value: T)

  /** The Go idiom `(value, err)`: exactly one of the two is meaningful. */
  datatype Result<+R, +E> = Ok(value: R) | Err(error: E)
}
