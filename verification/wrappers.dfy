/** A value that may be absent: the model of an optional (nullable) field. */
module Wrappers {

  datatype Option<+T> = None | Some(value: T)
}
