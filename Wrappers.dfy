/** The optional value and the success-or-error value the model uses in place
    of Python's None and of a caught exception. */
module Wrappers {

  datatype Option<T> = None | Some(value: T)

  datatype Result<T, E> = Success(value: T) | Failure(error: E)
}
