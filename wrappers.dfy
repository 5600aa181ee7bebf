/** Option, Result and the exceptions the archive code raises. */
module Wrappers {

  datatype Option<+T> = None | Some(value: T)

  datatype Result<+T, +E> = Success(value: T) | Failure(error: E)

  /** The Python exceptions that the modelled code raises or lets escape. */
  datatype Error =
    | AssertionError(message: string)
    | ValueError(message: string)
    | KeyError(key: string)
    | IndexError
}
