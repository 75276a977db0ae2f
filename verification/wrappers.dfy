/** The optional and fallible results the query layer hands back. */
module Wrappers {

  /** An optional value: an accessor's `Option<&T>`. */
  datatype Option<+T> = None | Some(value: T)

  /** A value or an error: an accessor's `Result<T, E>`. */
  datatype Result<+T, +E> = Success(value: T) | Failure(error: E)
}
