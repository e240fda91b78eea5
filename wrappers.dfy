/** The optional value used in place of a nullable reference. */
module Wrappers {

  datatype Option<+T> = None | Some(value: T)
}
