/** The optional value used for a cast that may fail. */
module Wrappers {

  datatype Option<+T> = None | Some(value: T)
}
