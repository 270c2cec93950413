/** Optional values and results with an error, used for the page's nullable
    link and for the outcome of a form submission. */
module Wrappers {

  datatype Option<+T> = None | Some(value: T)

  datatype Result<+R, +E> = Success(value: R) | Failure(error: E)
}
