/** Small value types shared by every component model. */
module Prelude {

  /** A value that may be absent: a nil pointer, a missing map key, an unset field. */
  datatype Option<+T> = None | Some(value: T)

  /** The (value, error) pair of an operation that can fail. */
  datatype Result<+T, +E> = Ok(value: T) | Err(error: E)
}
