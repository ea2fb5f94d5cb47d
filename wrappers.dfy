/** The optional value used for Go's nil-able pointers and error returns. */
module Wrappers {

  datatype Option<+T> = None | Some(value: T)
}
