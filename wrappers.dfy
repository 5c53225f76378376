/** The optional value used wherever the game keeps `None` or a reference. */
module Wrappers {
  datatype Option<+T> = None | Some(value: T)
}
