module Wrappers {
  datatype Option<+A> = None | Some(value: A)
}
