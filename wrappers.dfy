/** The Option datatype used for values the source represents as possibly null. */
module Wrappers {

  datatype Option<+T> = None | Some(value: T)
}
