/** The optional value used wherever the modelled code returns "nothing found". */
module Wrappers {
  datatype Option<+T> = None | Some(value: T)
}
