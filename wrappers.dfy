/** The optional-value and success/failure wrappers used for the source's
    `T | null` values, optional fields and error responses. */
module Wrappers {

  /** `Some(v)` for a present value, `None` for JavaScript's `null`/`undefined`. */
  datatype Option<+T> = None | Some(value: T)

  /** The outcome of an operation that can fail with an error value. */
  datatype Result<+R, +E> = Success(value: R) | Failure(error: E)
}
