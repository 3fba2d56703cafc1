/** Option, Result and Outcome: the shapes in which the model reports a value,
    a value or a raised exception, and success or a raised exception. */
module Wrappers {

  datatype Option<+T> = None | Some(value: T)

  datatype Result<+R, +E> = Success(value: R) | Failure(error: E)

  datatype Outcome<+E> = Pass | Fail(error: E)
}
