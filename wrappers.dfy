/** Option: a value that may be missing (a null reference, or a call that throws). */
module Wrappers {
  datatype Option<+T> = None | Some(value: T)
}
