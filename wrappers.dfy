/** The optional value used for absent dictionary entries and suppressed notifications. */
module Wrappers {
  datatype Option<+T> = None | Some(value: T)
}
