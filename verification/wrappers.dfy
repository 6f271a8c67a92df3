/** Optional values and success/failure results shared by the request models. */
module Wrappers {

  /** A value that may be absent; stands for a Go pointer or interface that may be nil. */
  datatype Option<+T> = None | Some(value: T)

  /** The outcome of a step that can fail with an error of type E. */
  datatype Result<+R, +E> = Success(value: R) | Failure(error: E)
}
