/** Failure-carrying result types shared by every module of the model.
    An exception thrown by the C# code becomes an `Err`, and a lookup that
    silently finds nothing becomes a `None`. */
module Outcomes {

  /** A value that may be absent (a C# `null` reference or a missed `Find`). */
  datatype Option<+T> = None | Some(value: T)

  /** Either a completed operation or the exception it would have raised. */
  datatype Result<+T, +E> = Ok(value: T) | Err(error: E)
}
