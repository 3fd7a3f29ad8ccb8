/** The optional-value type shared by the other modules. */
module Wrappers {

  /** A value that may be absent: an unset request field or header, an unset document path. */
  datatype Option<+T> = None | Some(value: T)
}
