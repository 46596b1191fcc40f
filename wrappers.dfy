/** Java's nullable references and thrown exceptions, as values. */
module Wrappers {

  /** A reference that may be `null` (`None`), or `java.util.Optional`. */
  datatype Option<+T> = None | Some(value: T)

  /** The outcome of a Java call that either returns a value or throws. */
  datatype Result<+T, +E> = Ok(value: T) | Err(error: E)

  /** The exceptions the modelled code throws, by class and message. */
  datatype Failure =
    | IllegalArgumentException(message: string)
    | NullPointerException
    | NumberFormatException(input: string)
    | RuntimeException(message: string)
}
