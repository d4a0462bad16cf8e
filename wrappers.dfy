/** Option and Result, the two failure-aware shapes every handler uses. */
module Wrappers {

  /** A value that may be missing (JavaScript `null` / `undefined`). */
  datatype Option<+T> = None | Some(value: T)

  /** The outcome of a call that may throw: its value, or the thrown error's `message`. */
  datatype Result<+T> = Ok(value: T) | Err(message: string)
}
