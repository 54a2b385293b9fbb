/** Optional values and results with an error, standing in for JavaScript's
    null/undefined fields and for the error responses of the request handlers. */
module Wrappers {

  datatype Option<+T> = None | Some(value: T)

  datatype Result<+R, +E> = Success(value: R) | Failure(error: E)
}
