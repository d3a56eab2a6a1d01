/** Option and Result, the two wrappers the rest of the model is written with. */
module Common {

  /** A value that may be absent: an unset request field, a lookup that found nothing. */
  datatype Option<+T> = None | Some(value: T)

  /** The outcome of an operation that can fail with an error of type E. */
  datatype Result<+T, +E> = Success(value: T) | Failure(error: E)
}
