/** Optional values and error-carrying results, standing in for Go's nil
    pointers and `(value, error)` return pairs. */
module Wrappers {

  /** A Go pointer or slice that may be nil: `None` is nil. */
  datatype Option<+T> = None | Some(value: T)

  /** A Go `(value, error)` pair where exactly one side is meaningful. */
  datatype Result<+T, +E> = Success(value: T) | Failure(error: E)
}
