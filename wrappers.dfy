/** Optional values and results with an error, as used across the model. */
module Wrappers {

  datatype Option<T> = None | Some(value: T)

  /** The outcome of a Python call that either returns a value or raises an exception with a message. */
  datatype Result<T, E> = Success(value: T) | Failure(error: E)
}
