/** Present/absent values and success/failure results.
    Python's `None` for an option that was not given becomes `None` here, and
    a raised exception becomes a `Failure`. */
module Wrappers {

  /** An optional value: `None` is "not provided", which is different from a
      provided zero or empty value. */
  datatype Option<+T> = None | Some(value: T)

  /** The outcome of an operation that either produces a value or raises. */
  datatype Result<+R, +E> = Success(value: R) | Failure(error: E)
}
