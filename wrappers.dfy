/** Small failure-carrying datatypes shared by the other modules. */
module Wrappers {

  /** A value that may be absent (Python's `None`). */
  datatype Option<+T> = None | Some(value: T)

  /** The outcome of an operation that returns a value or raises an error. */
  datatype Result<+T, +E> = Success(value: T) | Failure(error: E)

  /** The outcome of an operation that returns nothing or raises an error. */
  datatype Outcome<+E> = Pass | Fail(error: E)

  /** A Python instance attribute: `Missing` until some method first assigns it,
      after which reading it yields the value. Reading a missing attribute raises
      AttributeError. */
  datatype Attr<+T> = Missing | Present(value: T)
}
