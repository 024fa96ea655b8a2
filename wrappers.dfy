/** The optional value used for a nullable exception argument. */
module Wrappers {

  datatype Option<+T> = None | Some(value: T)
}
