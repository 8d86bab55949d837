/** Optional values and the two Python exceptions the controller can raise. */
module Outcomes {

  datatype Option<T> = None | Some(value: T)

  /** `NameError`: an undefined global is looked up; `ValueError`: a value
      outside 0..255 is stored into a `bytearray`. */
  datatype Error = NameError | ValueError

  datatype Result<T> = Ok(value: T) | Err(error: Error)
}
