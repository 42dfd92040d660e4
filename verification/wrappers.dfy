/** Failure-compatible wrappers shared by the whole model. */
module Wrappers {

  /** Python's `Optional[...]`: `None` or a present value. */
  datatype Option<+T> = None | Some(value: T)

  /** The outcome of a Python expression that either returns a value or
      raises `IndexError` (the only exception the modelled code can raise). */
  datatype Result<+T> = Ok(value: T) | IndexError
}
