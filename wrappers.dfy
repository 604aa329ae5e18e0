/** Failure-carrying result types shared by the collector model. */
module Wrappers {

  /** A value that may be missing (Python's `None`). */
  datatype Option<+T> = None | Some(value: T)

  /** A computation that either produced a value or raised an error. */
  datatype Result<+T, +E> = Ok(value: T) | Err(error: E)

  /** A key of a decoded JSON object: either absent, or present with a value. */
  datatype Field<+T> = Absent | Present(value: T)
}
