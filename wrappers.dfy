/** Optional values and results, as Go's (value, error) pairs are modelled throughout. */
module Wrappers {
  datatype Option<T> = None | Some(value: T)

  datatype Result<T, E> = Success(value: T) | Failure(error: E)
}
