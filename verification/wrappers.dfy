/** The optional value used for parsers and for Go's nil-able error arguments. */
module Wrappers {

  datatype Option<+T> = None | Some(value: T)
}
