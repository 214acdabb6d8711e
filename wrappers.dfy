/** Small value wrappers shared by the model. */
module Wrappers {

  /** A value that may be absent, e.g. the watermark before the first completed run. */
  datatype Option<+T> = None | Some(value: T)

  /** The outcome of a call that either returns a value or raises an exception
      carrying a human-readable message (Python's `str(e)`). */
  datatype Result<+T> = Ok(value: T) | Raised(message: string)
}
