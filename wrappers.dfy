/** Option, Result and Outcome: the values that stand for Java's null and for
    a call that either returns normally or throws. */
module Wrappers {

  /** A possibly absent value; `None` plays the part of a Java `null`. */
  datatype Option<+T> = None | Some(value: T)

  /** A value returned normally, or the exception that was thrown instead. */
  datatype Result<+R, +E> = Success(value: R) | Failure(error: E)

  /** A `void` call: it returns normally (`Pass`) or throws `error`. */
  datatype Outcome<+E> = Pass | Fail(error: E)
}
