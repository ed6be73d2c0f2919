/** Nullable references and thrown exceptions, as values. */
module Wrappers {

  /** A Java reference that may be null: `None` is null. */
  datatype Option<+T> = None | Some(value: T)

  /** The exceptions the modelled code throws or propagates. */
  datatype Exception =
    | IllegalArgumentException(message: string, cause: Option<Exception>)
    | IOException(message: string)

  /** The outcome of a call that either returns a value or throws. */
  datatype Result<+T> = Success(value: T) | Failure(error: Exception)
}
