/** The optional value used wherever the C source passes or returns a possibly-NULL pointer. */
module Wrappers {
  datatype Option<T> = None | Some(value: T)
}
