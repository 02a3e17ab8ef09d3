/** Failure-carrying return values: Go's `(value, error)` pairs and comma-ok lookups. */
module Wrappers {

  datatype Option<+T> = None | Some(value: T)

  /** `Success(v)` stands for a nil error with value `v`; `Failure(e)` for a non-nil error `e`. */
  datatype Result<+T, +E> = Success(value: T) | Failure(error: E)
}
