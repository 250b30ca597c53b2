/** Option and Result: the model's stand-ins for Go's nil values / (value, error) pairs and for
    Python's None / raised exceptions. */
module Wrappers {

  /** A possibly-absent value: Go's nil, Python's None. */
  datatype Option<+T> = None | Some(value: T)

  /** A value or an error: Go's `(value, err)` return pair, Python's return-or-raise. */
  datatype Result<+R, +E> = Ok(value: R) | Err(error: E)
}
