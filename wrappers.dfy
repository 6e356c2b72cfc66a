/** Failure-carrying wrappers used wherever the C++ code throws or returns a flag. */
module Wrappers {

  datatype Option<+T> = None | Some(value: T)

  /** A computed value, or the exception the C++ code would throw instead. */
  datatype Result<+R, +E> = Ok(value: R) | Err(error: E)

  /** Completion of a `void` operation that may throw. */
  datatype Outcome<+E> = Pass | Fail(error: E)
}
