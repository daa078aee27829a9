/** An optional value: a missing member, a failed parse or an absent socket. */
module Wrappers {
  datatype Option<+T> = None | Some(value: T)
}
