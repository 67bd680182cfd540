/** The optional value used for the `Location` header and for a resolved output URL. */
module Wrappers {
  datatype Option<+T> = None | Some(value: T)
}
