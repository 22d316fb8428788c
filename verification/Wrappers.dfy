// The one failure-free container the model needs.
module Wrappers {
  datatype Option<+T> = None | Some(value: T)
}
