/** Option and Result, for values a C function leaves unset or errors it
    reports instead of a value. */
module Wrappers {
  datatype Option<+T> = None | Some(value: T)

  datatype Result<+T, +E> = Success(value: T) | Failure(error: E)
}
