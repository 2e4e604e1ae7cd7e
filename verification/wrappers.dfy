/** The optional value used for the selected-friend slot and for lookups. */
module Wrappers {

  datatype Option<+T> = None | Some(value: T)
}
