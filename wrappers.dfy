/** Option and Result wrappers for the source's `null` values and exceptions. */
module Wrappers {

  /** A value that may be absent: the model of a nullable reference. */
  datatype Option<+T> = None | Some(value: T)

  /** The result of an operation that can throw: a value, or the exception it raises. */
  datatype Result<+R, +E> = Success(value: R) | Failure(error: E)

  /** The outcome of a void operation that can throw. */
  datatype Outcome<+E> = Pass | Fail(error: E)

  /** The absent/present value as a list of zero or one elements. */
  function OptionToSeq<T>(o: Option<T>): seq<T> {
    match o
    case None => []
    case Some(v) => [v]
  }
}
