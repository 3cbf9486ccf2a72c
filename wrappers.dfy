/** The optional value the session uses where the original stores None. */
module Wrappers {
  datatype Option<+T> = None | Some(value: T)
}
