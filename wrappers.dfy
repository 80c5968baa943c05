/** Option and Result, the failure-carrying values used throughout the model. */
module Wrappers {

  /** A value that may be absent: Python's `Optional[T]`. */
  datatype Option<+T> = None | Some(value: T)

  /** Either a value or an error: a Python function that returns or raises. */
  datatype Result<+R, +E> = Success(value: R) | Failure(error: E)
}
