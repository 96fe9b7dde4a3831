/** An optional value, shared by the modules that need one. */
module Wrappers {
  datatype Option<T> = None | Some(value: T)
}
