/** Failure-carrying wrappers shared by the other modules. */
module Results {

  /** A value that may be missing: a JavaScript `null`/`undefined` argument or an absent callback value. */
  datatype Option<+T> = None | Some(value: T)

  /** The outcome of a call that either delivers a value or an error. */
  datatype Result<+T, +E> = Success(value: T) | Failure(error: E)
}
