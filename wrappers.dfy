/** Option, and the outcome of a Python call that may raise. */
module Wrappers {

  datatype Option<+T> = None | Some(value: T)

  /** A call that returned `value`, or one that raised an exception.  The core
      never distinguishes exception classes: every handler it has treats
      KeyError, TypeError and AttributeError alike. */
  datatype Outcome<+T> = Ok(value: T) | Raised
}
