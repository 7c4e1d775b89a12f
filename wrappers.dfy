/** Option and Result, the stand-ins for Python's `None` and for a raised exception. */
module Wrappers {

  /** `None` or a value, as Python's `X | None`. */
  datatype Option<+T> = None | Some(value: T)

  /** A returned value or the error that the Python code raises instead. */
  datatype Result<+R, +E> = Success(value: R) | Failure(error: E)
}
