/** Optional values and results with an error case. */
module Wrappers {

  /** A value that may be absent (`undefined` in the panel's code). */
  datatype Option<+T> = None | Some(value: T)

  /** The outcome of a step that can fail with an error of type `E`. */
  datatype Result<+R, +E> = Success(value: R) | Failure(error: E)
}
