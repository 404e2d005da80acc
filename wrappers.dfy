/** The optional value used for lookups that may miss and for the nullable selection. */
module Wrappers {

  datatype Option<+T> = None | Some(value: T)
}
