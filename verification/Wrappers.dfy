/** The two result shapes shared by every module. */
module Wrappers {
  /** Python's `X | None`. */
  datatype Option<+T> = None | Some(value: T)

  /** A call that either returns a value or raises. */
  datatype Result<+T, +E> = Success(value: T) | Failure(error: E)
}
