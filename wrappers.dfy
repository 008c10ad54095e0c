/** The optional value of a Go pointer field: absent (nil) or present. */
module Wrappers {

  datatype Option<+T> = None | Some(value: T)
}
