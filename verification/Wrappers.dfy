/** Failure-carrying results: Swift's optionals and `throws`. */
module Wrappers {

  datatype Option<+T> = None | Some(value: T)

  /** The outcome of a Swift function that `throws`: a value or the error it threw. */
  datatype Result<+T, +E> = Success(value: T) | Failure(error: E)
}
