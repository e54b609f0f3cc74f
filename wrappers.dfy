/** Optional values and error results shared by every module of the model. */
module Wrappers {

  /** A value that may be absent (`null` / `undefined` / `None` in the source). */
  datatype Option<+T> = None | Some(value: T)

  /** The outcome of an operation that can fail with an error value. */
  datatype Result<+R, +E> = Success(value: R) | Failure(error: E)
}
