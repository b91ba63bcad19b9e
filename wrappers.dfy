/** Optional values and error-or-value results, standing for Go's nil pointers
    and its (value, error) return pairs. */
module Wrappers {

  /** A Go pointer or interface that may be nil. */
  datatype Option<+T> = None | Some(value: T)

  /** A Go `(T, error)` pair where exactly one side is meaningful. */
  datatype Result<+T, +E> = Success(value: T) | Failure(error: E)
}
