/** Optional values and exception-carrying results used across the model. */
module Results {

  /** A value that may be absent (a C# null reference). */
  datatype Option<+T> = None | Some(value: T)

  /** The normal return value of an operation, or the exception it raised. */
  datatype Result<+T, +E> = Success(value: T) | Failure(error: E)
}
