/** The usual value-or-nothing type. */
module Wrappers {
  datatype Option<+T> = None | Some(value: T)
}
