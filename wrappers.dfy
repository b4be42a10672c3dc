/** Small helper datatypes shared by the other modules. */
module Wrappers {

  /** A value that may be absent: an unset field or an omitted argument. */
  datatype Option<+T> = None | Some(value: T)
}
