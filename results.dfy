/** Failure-carrying return types shared by the models of the four scripts.
    Python raises exceptions; the models return them as values instead. */
module Results {

  /** An optional value: Python's `None` or a real object. */
  datatype Option<+T> = None | Some(value: T)

  /** The value of a call that either returns or raises. */
  datatype Result<+T, +E> = Success(value: T) | Failure(error: E)

  /** The value of a call whose only result in Python is `None` or an exception. */
  datatype Outcome<+E> = Pass | Fail(error: E)
}
