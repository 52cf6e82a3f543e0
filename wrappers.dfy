/** Optional values and results with an error, shared by every module of the model. */
module Wrappers {

  /** A value that may be absent, like Python's None. */
  datatype Option<T> = None | Some(value: T)

  /** The outcome of an operation that can raise: a value, or the error it raised. */
  datatype Result<T, E> = Success(value: T) | Failure(error: E)
}
