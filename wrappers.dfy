/** Optional values and success-or-error results, standing in for Go's
    `(value, error)` return pairs and nil-able values. */
module Wrappers {

  datatype Option<+T> = None | Some(value: T)

  datatype Result<+R, +E> = Success(value: R) | Failure(error: E)
}
