/** Nullable values and the two ways a service call can end. */
module Wrappers {

  /** A possibly-null reference: `None` stands for Java's `null`. */
  datatype Option<+T> = None | Some(value: T)

  /** The outcome of a call that returns a value or throws. */
  datatype Result<+T, +E> = Ok(value: T) | Err(error: E)

  /** The outcome of a `void` call that returns normally or throws. */
  datatype Outcome<+E> = Pass | Fail(error: E)
}
