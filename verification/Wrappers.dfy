/** A value that may be absent: a nullable column, a missing row, an unreadable quote. */
module Wrappers {
  datatype Option<+T> = None | Some(value: T)
}
