/** The optional value used for a lookup that may find nothing (Java's null). */
module Wrappers {

  datatype Option<+T> = None | Some(value: T)

}
