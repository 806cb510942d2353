// The optional value used wherever the program uses null for "absent".

module Wrappers {
  datatype Option<T> = None | Some(value: T)
}
