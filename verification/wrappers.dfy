/** The optional value used wherever the component stores `null`. */
module Wrappers {

  datatype Option<+T> = None | Some(value: T)
}
