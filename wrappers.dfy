/** The optional value used for the outcome of the remote text-generation call. */
module Wrappers {
  datatype Option<+T> = None | Some(value: T)
}
