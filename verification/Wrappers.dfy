/** The optional value used wherever the source stores None. */
module Wrappers {

  datatype Option<+T> = None | Some(value: T)
}
