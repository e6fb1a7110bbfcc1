/** Optional values and error-carrying results, shared by the other modules. */
module Wrappers {

  /** A value that may be absent: TypeScript's `T | undefined`. */
  datatype Option<+T> = None | Some(value: T)

  /** The outcome of an operation that may throw: either its value or the error it throws. */
  datatype Result<+T, +E> = Success(value: T) | Failure(error: E)
}
