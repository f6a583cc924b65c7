/** Failure-compatible values: C# null and thrown exceptions become data. */
module Wrappers {

  /** A value that may be absent; `None` stands for a C# `null`. */
  datatype Option<+T> = None | Some(value: T)

  /** A computed value, or the exception that would have been thrown instead. */
  datatype Result<+R, +E> = Success(value: R) | Failure(error: E)

  /** A `void` call that either returns normally or throws `error`. */
  datatype Outcome<+E> = Pass | Fail(error: E)
}
