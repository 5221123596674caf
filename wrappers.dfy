/** Success-or-error values, standing in for Go's `(value, error)` return pairs. */
module Wrappers {

  datatype Result<+T, +E> = Success(value: T) | Failure(error: E)
}
