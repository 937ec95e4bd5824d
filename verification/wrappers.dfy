/** The optional value used for JSON fields that a provider may leave out. */
module Wrappers {

  datatype Option<+T> = None | Some(value: T)

}
