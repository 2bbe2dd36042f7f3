/** Failure-carrying values shared by the model. */
module Wrappers {

  /** A value that may be absent: JavaScript's `null` (or a missing
      property) is `None`. */
  datatype Option<+T> = None | Some(value: T)

  /** The result of an operation that either returns a value or throws an
      `Error` whose message is `message`. */
  datatype Outcome<+T> = Ok(value: T) | Err(message: string)
}
