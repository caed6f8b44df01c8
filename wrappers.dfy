/** Optional values and results with an error, as the plugin's `(value, error)` returns use them. */
module Wrappers {

  datatype Option<+T> = None | Some(value: T)

  datatype Result<+R, +E> = Success(value: R) | Failure(error: E)
}
