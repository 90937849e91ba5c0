/** The optional value used where a reading of a response can fail. */
module Wrappers {
  datatype Option<T> = None | Some(value: T)
}
