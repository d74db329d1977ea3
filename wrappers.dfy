/** The optional value used throughout: a missing record, a missing cookie. */
module Wrappers {
  datatype Option<+T> = None | Some(value: T)
}
