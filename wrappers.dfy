/** An optional value, used for C++ values that may be absent or indeterminate. */
module Wrappers {
  datatype Option<+T> = None | Some(value: T)
}
