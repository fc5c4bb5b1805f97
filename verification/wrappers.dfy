/** Option and Result, the two failure-carrying shapes the model uses for Go's
    nil values and its (value, error) return pairs. */
module Wrappers {

  datatype Option<+T> = None | Some(value: T)

  datatype Result<+T, +E> = Ok(value: T) | Err(error: E)
}
