/** The Option datatype used for lookups that may fail and for JSON values that may be null. */
module Wrappers {

  datatype Option<+T> = None | Some(value: T)
}
