/** Small option type used where the source has `undefined` or "not found". */
module Wrappers {

  datatype Option<+T> = None | Some(value: T)
}
