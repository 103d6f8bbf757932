/** Go's `(value, error)` convention, as values. */
module Wrappers {

  /** An optional value; `None` also stands for Go's `nil` error. */
  datatype Option<+T> = None | Some(value: T)

  /** A value or the error that prevented it. */
  datatype Result<+R, +E> = Success(value: R) | Failure(error: E)
}
