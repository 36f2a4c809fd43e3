/** The optional-value datatype used wherever the source tolerates an absent value. */
module Wrappers {
  datatype Option<+T> = None | Some(value: T)
}
