/** The optional value and the success-or-error value used across the model: a missing
    object (`null`/`undefined` in the JavaScript), a line whose JSON does not decode, and
    a step that either goes ahead or throws its message. */
module Wrappers {

  datatype Option<+T> = None | Some(value: T)

  datatype Result<+T, +E> = Success(value: T) | Failure(error: E)
}
