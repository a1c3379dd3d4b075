/** The optional value used for Go's nil-able interfaces and pointers. */
module Wrappers {
  datatype Option<+T> = None | Some(value: T)
}
