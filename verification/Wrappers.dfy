/** Two small sum types: `Option` for a JavaScript value that may be `null` or `undefined`, and
    `Result` for the outcome of restoring the session, which either yields a value or an error. */
module Wrappers {

  datatype Option<+T> = None | Some(value: T)

  datatype Result<+R, +E> = Success(value: R) | Failure(error: E)
}
