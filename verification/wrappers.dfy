/** The optional value the other modules share. */
module Wrappers {
  /** Python's `None`-or-a-value. */
  datatype Option<+T> = None | Some(value: T)
}
