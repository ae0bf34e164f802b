/** The optional value used for absent files, failed calls and missing markers. */
module Wrappers {
  datatype Option<+T> = None | Some(value: T)
}
