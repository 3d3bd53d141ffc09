/** The optional value used where the driver has a pointer that may be NULL. */
module Wrappers {
  datatype Option<+T> = None | Some(value: T)
}
