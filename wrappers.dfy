/** The optional value used wherever the modelled code has "null" or "absent". */
module Wrappers {

  datatype Option<+T> = None | Some(value: T)
}
