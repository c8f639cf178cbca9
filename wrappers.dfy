/** Wrappers shared by the client and server models. */
module Wrappers {

  /** An optional value: a JavaScript `null`/`undefined` or a Python `None` is `None`. */
  datatype Option<+T> = None | Some(value: T)

  /** A value, or the error the source raises instead of returning one. */
  datatype Result<+R, +E> = Success(value: R) | Failure(error: E)

  /** Completion of a statement that returns nothing but may raise. */
  datatype Outcome<+E> = Pass | Fail(error: E)
}
