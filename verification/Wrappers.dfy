/** The one wrapper type the protocols share. */
module Wrappers {
  datatype Option<+T> = None | Some(value: T)
}
