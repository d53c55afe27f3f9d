/** Failure-carrying wrappers used by the store's lookup hooks. */
module Results {

  /** An optional value: the context lookup either finds an enclosing store or not. */
  datatype Option<+T> = None | Some(value: T)

  /** The outcome of a hook call: a value, or the error it throws. */
  datatype Result<+T, +E> = Success(value: T) | Failure(error: E)
}
