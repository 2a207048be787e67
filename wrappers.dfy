/** The optional value used for a parse that may fail and for a snapshot field that may be absent. */
module Wrappers {

  datatype Option<+T> = None | Some(value: T)
}
