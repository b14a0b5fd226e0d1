/** Option and Result values used where the dashboard script reads a field
    that may be missing, or where a step may throw. */
module Wrappers {

  datatype Option<+T> = None | Some(value: T)

  datatype Result<+R, +E> = Success(value: R) | Failure(error: E)
}
