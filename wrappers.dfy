/** Optional values and success-or-failure results, used for nullable SQL
    parameters, the SQL NULL of an empty SUM and the error returns of Go. */
module Wrappers {

  datatype Option<+T> = None | Some(value: T)

  datatype Result<+R, +E> = Success(value: R) | Failure(error: E)
}
