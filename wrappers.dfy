/** Optional values and error-carrying results, used where the source returns
    `Optional<T>`, a nullable reference, or throws a `RuntimeException`. */
module Wrappers {

  datatype Option<+T> = None | Some(value: T)

  datatype Result<+T, +E> = Success(value: T) | Failure(error: E)
}
