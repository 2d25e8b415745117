/** Errors the HUD kit raises to its callers, and the wrappers that carry them. */
module Outcomes {

  /** The Python exception classes that the modelled code can raise. */
  datatype Error = TypeError | ValueError | KeyError | ZeroDivisionError

  /** A value, or the exception raised instead of producing it. */
  datatype Result<T> = Ok(value: T) | Err(error: Error)

  /** A value, or the `False` sentinel some colour helpers return instead. */
  datatype Option<T> = None | Some(value: T)
}
