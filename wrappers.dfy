/** A value that may be absent: a missing dictionary key, an empty selection. */
module Wrappers {
  datatype Option<+T> = None | Some(value: T)
}
