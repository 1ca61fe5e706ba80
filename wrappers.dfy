/** Optional values and results carrying an error, used for the
    nullable configuration strings and for the exceptions of the proxy. */
module Wrappers {

  datatype Option<+T> = None | Some(value: T)

  datatype Result<+R, +E> = Success(value: R) | Failure(error: E)
}
