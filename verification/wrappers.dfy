/** The optional values the systems read: a missing player, a tick without input. */
module Wrappers {
  datatype Option<+T> = None | Some(value: T)
}
