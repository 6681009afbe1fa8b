/** Option and Result, for the Python `None` and for the exceptions the callback can raise. */
module Wrappers {
  datatype Option<+T> = None | Some(value: T)

  datatype Result<+R, +E> = Success(value: R) | Failure(error: E)
}
