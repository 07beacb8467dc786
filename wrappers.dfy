/** The optional value that the host framework's lookups return. */
module Wrappers {

  /** A lookup result: nothing found, or the value found. */
  datatype Option<+T> = None | Some(value: T)
}
