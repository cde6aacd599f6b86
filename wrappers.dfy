/** The optional value used for operations that can fail (an exception in the program). */
module Wrappers {
  datatype Option<+T> = None | Some(value: T)
}
