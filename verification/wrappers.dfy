/** A value that may be absent, as everywhere in the model. */
module Wrappers {
  datatype Option<+T> = None | Some(value: T)
}
