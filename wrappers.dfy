/** The optional value used for the preference slot and the icon lookup. */
module Wrappers {
  datatype Option<+T> = None | Some(value: T)
}
