/** Option, Result and Outcome: the values the gateway's operations return
    in place of JavaScript's undefined and thrown errors. */
module Wrappers {

  datatype Option<+T> = None | Some(value: T)

  /** A value or the error that the source throws instead of returning. */
  datatype Result<+T, +E> = Ok(value: T) | Err(error: E)

  /** The result of a check that returns nothing when it passes. */
  datatype Outcome<+E> = Pass | Fail(error: E)
}
