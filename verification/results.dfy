/** Option and Result values threaded through the scanners. */
module Results {

  /** An optional value: the token a scanner emits, if any. */
  datatype Option<+T> = None | Some(value: T)

  /** The outcome of a scan: a value, or the first fatal error. */
  datatype Result<+T, +E> = Success(value: T) | Failure(error: E)
}
