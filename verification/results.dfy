/** Go's (value, error) returns: an error is its message, and a nil error is None. */
module Results {

  /** An error value, identified by the message Go's `err.Error()` would print. */
  type Error = string

  datatype Option<+T> = None | Some(value: T)

  datatype Result<+T> = Success(value: T) | Failure(error: Error)
}
