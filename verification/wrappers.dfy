/** Failure-carrying results used where the template raises an exception. */
module Wrappers {

  /** A value that may be absent. */
  datatype Option<+T> = None | Some(value: T)

  /** Either a computed value or the error the source would raise. */
  datatype Result<+T, +E> = Success(value: T) | Failure(error: E)
}
