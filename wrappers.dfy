/** The optional value used wherever the plugin may or may not produce something. */
module Wrappers {

  datatype Option<+T> = None | Some(value: T)
}
