/** The optional value used for the state of the de-duplicating operator. */
module Wrappers {

  datatype Option<+T> = None | Some(value: T)
}
