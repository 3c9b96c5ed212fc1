/** Failure-carrying values used throughout the model in place of C++ exceptions
    and nullable pointers. */
module Results {

  /** A value that may be absent: an unset environment variable, a missing
      Python frame. */
  datatype Option<+T> = None | Some(value: T)

  /** Either a computed value or the error a C++ `throw` would have carried. */
  datatype Result<+T, +E> = Success(value: T) | Failure(error: E)
}
