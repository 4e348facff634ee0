/** Optional values and results with an error value, shared by the other modules. */
module Wrappers {

  /** A value that may be absent (`undefined` in the original TypeScript). */
  datatype Option<+T> = None | Some(value: T)

  /** The outcome of a step that may throw: `Failure` carries the error's message. */
  datatype Result<+R, +E> = Success(value: R) | Failure(error: E)
}
