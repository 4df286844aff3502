/** The optional value used wherever the editor has "nothing yet" or "no such element". */
module Wrappers {
  datatype Option<+T> = None | Some(value: T)
}
