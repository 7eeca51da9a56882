/** Failure-compatible wrappers shared by the modules of this model. */
module Wrappers {

  /** A value that may be absent: TypeScript's `T | null`. */
  datatype Option<+T> = None | Some(value: T)

  /** Either a value or the error produced instead of it. */
  datatype Result<+R, +E> = Success(value: R) | Failure(error: E)
}
