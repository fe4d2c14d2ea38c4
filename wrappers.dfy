/** The optional value used where the source keeps `null` in a variable until it is set. */
module Wrappers {

  datatype Option<+T> = None | Some(value: T)
}
