/** Failure-carrying values shared by the workout modules. */
module Results {

  /** An optional value, used for dictionary lookups that may miss. */
  datatype Option<+T> = None | Some(value: T)

  /** The outcome of an operation that either yields a value or raises an error. */
  datatype Result<+T, +E> = Success(value: T) | Failure(error: E)
}
