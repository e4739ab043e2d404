/** The optional value used by the menu model: a checked item index may be absent. */
module Wrappers {
  datatype Option<+T> = None | Some(value: T)
}
