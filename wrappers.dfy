/** The optional value used wherever the engine returns `undefined` for "nothing". */
module Wrappers {
  datatype Option<+T> = None | Some(value: T)
}
