/** The two wrappers the model uses for Go's nil-able values and its (value, error) pairs. */
module Wrappers {

  /** A value that may be absent: Go's nil pointer, nil interface or unset context value. */
  datatype Option<+T> = None | Some(value: T)

  /** A (value, error) pair as Go returns it: a non-nil value when err == nil, the error otherwise. */
  datatype Result<+T, +E> = Ok(value: T) | Err(error: E)
}
