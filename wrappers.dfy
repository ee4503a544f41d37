/** A value that may be absent: a missing hat, an unmapped button flag. */
module Wrappers {
  datatype Option<T> = None | Some(value: T)
}
