/** The stand-in for the source's optional values. */
module Wrappers {
  datatype Option<+T> = None | Some(value: T)
}
