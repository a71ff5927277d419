/** Option and Result values standing for Go's `(value, error)` returns. */
module Wrappers {

  datatype Option<+T> = None | Some(value: T)

  /** `Failure(e)` is Go's `(nil, err)`; `Success(v)` is `(v, nil)`. */
  datatype Result<+T, +E> = Success(value: T) | Failure(error: E)
}
