/** Value-level stand-ins for JavaScript's `undefined` and for thrown errors. */
module Wrappers {

  /** `None` is an absent (`undefined` or `null`) value; `Some(v)` a present one. */
  datatype Option<+T> = None | Some(value: T)

  /** The outcome of an operation that may throw: `Err` carries the error message. */
  datatype Result<+T> = Ok(value: T) | Err(message: string)
}
