/** The Some/None datatype used for nullable pointers and failed look-ups. */
module Wrappers {
  datatype Option<+T> = None | Some(value: T)
}
