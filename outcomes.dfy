/** Optional values and the results of operations that may raise a Python exception. */
module Outcomes {

  /** A value that may be absent (Python's `None`). */
  datatype Option<+T> = None | Some(value: T)

  /** The result of an operation that either returns a value or raises an exception,
      identified by its Python class and message. */
  datatype Result<+T> = Value(value: T) | Raised(exception: string)
}
