/** Wrappers used across the model: an optional value
    (Python's `None` or a value) and a result that is either a value or the
    text of the exception that was raised. */
module Wrappers {

  datatype Option<+T> = None | Some(value: T)

  datatype Result<+R, +E> = Success(value: R) | Failure(error: E)
}
