/** Small value wrappers shared by the other modules. */
module Wrappers {

  /** An optional value: Python's `None` or a present value. */
  datatype Option<+T> = None | Some(value: T)

  /** The outcome of a Python call that either returns a value or raises.
      A raised exception is represented by its `repr()` text. */
  datatype Result<+T> = Ok(value: T) | Raised(exception: string)
}
