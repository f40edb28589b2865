/** Java's nullable references and thrown failures, as values. */
module Wrappers {

  /** `None` stands for `null`. */
  datatype Option<+T> = None | Some(value: T)

  /** A call that either returns a value or fails with an exception `error`. */
  datatype Result<+T, +E> = Success(value: T) | Failure(error: E)
}
