/** Optional values and results, shared by every module of the model. */
module Wrappers {

  datatype Option<+T> = None | Some(value: T)

  /** A returned value, or the error an exception in the source stands for. */
  datatype Result<+T, +E> = Success(value: T) | Failure(error: E)
}
