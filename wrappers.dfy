/** The optional value used wherever the source has `T | null` or an optional field `x?: T`. */
module Wrappers {

  datatype Option<+T> = None | Some(value: T)
}
