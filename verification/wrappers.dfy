/** Option, the usual stand-in for Python's `None` and for exceptions that a caller catches. */
module Wrappers {
  datatype Option<+T> = None | Some(value: T)
}
