/** The optional value used wherever the tracked record may hold JavaScript's `null`. */
module Wrappers {

  datatype Option<+T> = None | Some(value: T)
}
