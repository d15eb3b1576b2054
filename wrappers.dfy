/** The optional value used for absent map entries and unset fields. */
module Wrappers {

  datatype Option<+T> = None | Some(value: T)
}
