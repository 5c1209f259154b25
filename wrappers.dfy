/** The optional value used wherever the scripts return `None`. */
module Wrappers {

  datatype Option<+T> = None | Some(value: T)
}
