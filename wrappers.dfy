/** The optional value used throughout the model: a lookup that may find
    nothing, a payload member that may be missing. */
module Wrappers {

  datatype Option<+T> = None | Some(value: T)
}
