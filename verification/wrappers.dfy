/** The optional value used wherever the source returns `null` or a missing document. */
module Wrappers {

  datatype Option<+T> = None | Some(value: T)
}
