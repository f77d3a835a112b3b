/** A value that may be absent: used for the game-over summary and for sort keys. */
module Wrappers {
  datatype Option<+T> = None | Some(value: T)
}
