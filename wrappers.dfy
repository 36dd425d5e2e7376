/** Optional values and results with an error, as used throughout the model. */
module Wrappers {

  /** A Go pointer that may be nil: `*time.Time`, `*string`. */
  datatype Option<+T> = None | Some(value: T)

  /** A Go `(value, error)` pair where exactly one side is meaningful. */
  datatype Result<+T, +E> = Success(value: T) | Failure(error: E)
}
