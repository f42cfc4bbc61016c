/** The conventional optional value: SQL's NULL, Go's nil pointer. */
module Wrappers {
  datatype Option<+T> = None | Some(value: T)
}
