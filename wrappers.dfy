/** Option and Result, the two shapes Go's `(*T, error)` returns take in this model. */
module Wrappers {

  /** A value that may be absent: Go's nil pointer or missing field. */
  datatype Option<+T> = None | Some(value: T)

  /** Either a value or an error: Go's `(value, err)` pair with exactly one meaningful half. */
  datatype Result<+R, +E> = Success(value: R) | Failure(error: E)
}
