/** The optional value used where the site stores `null` or a missing entry. */
module Wrappers {

  datatype Option<+T> = None | Some(value: T)
}
