/** Small failure-carrying wrappers shared by the other modules. */
module Types {

  /** A value that may be absent. */
  datatype Option<T> = None | Some(value: T)

  /** Either a value or an error, the way a Go function returns `(value, err)`. */
  datatype Result<T, E> = Success(value: T) | Failure(error: E)
}
