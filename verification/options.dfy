/** Failure-carrying wrappers used by the model: an optional value (a C
    pointer that may be NULL) and a success-or-error result (a constructor
    that may refuse its arguments). */
module Options {

  /** A value that may be absent, like a pointer that may be NULL. */
  datatype Option<+T> = None | Some(value: T)

  /** Either a constructed value or the reason construction was refused. */
  datatype Result<+T, +E> = Success(value: T) | Failure(error: E)
}
