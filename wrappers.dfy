/** The optional value used for the source's nullable results. */
module Wrappers {
  datatype Option<+T> = None | Some(value: T)
}
