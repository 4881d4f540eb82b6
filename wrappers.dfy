/** Optional values and results with an error, the shapes Go expresses with nil and (value, error) pairs. */
module Wrappers {

  datatype Option<T> = None | Some(value: T)

  datatype Result<T, E> = Success(value: T) | Failure(error: E)
}
