/** Option, the value-or-nothing type used where the program returns a nil pointer or a missing map entry. */
module Wrappers {
  datatype Option<+T> = None | Some(value: T)
}
