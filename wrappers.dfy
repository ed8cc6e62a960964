/** Option and Result, the shapes of Go's `(value, error)` returns and nil-able errors. */
module Wrappers {

  datatype Option<+T> = None | Some(value: T)

  datatype Result<+T, +E> = Success(value: T) | Failure(error: E)
}
