/** The optional value used wherever the program returns a pointer or a (value, ok) pair. */
module Wrappers {
  datatype Option<+T> = None | Some(value: T)
}
