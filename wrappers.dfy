/** Option, Result and Outcome: the value-level stand-ins for Java's null and for thrown exceptions. */
module Wrappers {

  datatype Option<+T> = None | Some(value: T)

  /** The outcome of a function that either returns a value or throws. */
  datatype Result<+R, +E> = Ok(value: R) | Err(error: E)

  /** The outcome of a void method that either returns normally or throws. */
  datatype Outcome<+E> = Pass | Fail(error: E)
}
