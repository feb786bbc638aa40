/** A value that may be absent: JSON `null` or a missing field. */
module Wrappers {

  datatype Option<+T> = None | Some(value: T)
}
