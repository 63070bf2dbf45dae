/** Option and Result values standing in for JavaScript's `null` and for thrown parse errors. */
module Wrappers {

  /** `None` plays the part of a `null` (or `undefined`) return. */
  datatype Option<+T> = None | Some(value: T)

  /** `Err` carries the message of an exception that the source lets propagate. */
  datatype Result<+T> = Ok(value: T) | Err(error: string)

  /** The settled state of a call that returns nothing: it resolved, or it rejected with a message. */
  datatype Outcome = Pass | Fail(error: string)
}
