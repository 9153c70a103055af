/** The outcome of a remote read that may fail. */
module Wrappers {

  datatype Option<+T> = None | Some(value: T)
}
