/** The optional value used where the source returns a null pointer or a failed cast. */
module Wrappers {

  datatype Option<+T> = None | Some(value: T)

}
