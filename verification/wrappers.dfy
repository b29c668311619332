/** Optional values and results with an error, used where the controller has
    a null reference or an engine call that can throw. */
module Wrappers {

  /** A value that may be absent (a null reference in the controller). */
  datatype Option<+T> = None | Some(value: T)

  /** A value, or the reason the operation could not produce one. */
  datatype Result<+R, +E> = Success(value: R) | Failure(error: E)
}
