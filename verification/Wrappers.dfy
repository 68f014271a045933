/** The optional value used wherever the program has a "found" flag or a nil pointer. */
module Wrappers {
  datatype Option<+T> = None | Some(value: T)
}
