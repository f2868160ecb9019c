/** Optional values (Java's null and Optional) and results with an error (Java's exceptions). */
module Wrappers {

  /** `None` stands for Java's `null` field value or an empty `Optional`. */
  datatype Option<+T> = None | Some(value: T)

  /** `Failure` stands for an exception thrown to the caller. */
  datatype Result<+T, +E> = Success(value: T) | Failure(error: E)
}
