/** Option and Result, used for Java's nullable references and for operations that can fail. */
module Wrappers {

  /** A Java reference that may be null. */
  datatype Option<T> = None | Some(value: T)

  /** The outcome of an operation that either yields a value or fails with an error. */
  datatype Result<T, E> = Success(value: T) | Failure(error: E)
}
