/** The two failure-carrying result shapes shared by the modules of this model:
    an optional value (Java's nullable reference) and a value-or-error result
    (Java's return-or-throw). */
module Wrappers {

  /** A Java reference that may be null: `None` stands for null. */
  datatype Option<T> = None | Some(value: T)

  /** A call that either returns `value` or throws `error`. */
  datatype Result<T, E> = Ok(value: T) | Err(error: E)
}
