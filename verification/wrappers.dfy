/** Failure-compatible wrappers used to model Python's `None` and raised exceptions. */
module Wrappers {

  /** A value that may be absent, as a Python `dict.get` result may be `None`. */
  datatype Option<+T> = None | Some(value: T)

  /** Either a value or the error a Python call would have raised. */
  datatype Result<+R, +E> = Success(value: R) | Failure(error: E)
}
