/** The optional value used for results that may be missing. */
module Wrappers {
  datatype Option<+T> = None | Some(value: T)
}
