/** The optional value used where the game's Python code returns or stores `None`. */
module Wrappers {
  datatype Option<T> = None | Some(value: T)
}
