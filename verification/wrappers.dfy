/** Optional and failure-carrying values, standing in for Java's nullable
    references, `java.util.Optional` and thrown exceptions. */
module Wrappers {

  /** A value that may be absent: `None` plays the part of Java's `null`
      and of an empty `Optional`. */
  datatype Option<+T> = None | Some(value: T)

  /** The outcome of a computation that either yields a value or fails
      with an error, as a reactive pipeline delivers either a value or an
      error signal. */
  datatype Result<+T, +E> = Success(value: T) | Failure(error: E)
}
