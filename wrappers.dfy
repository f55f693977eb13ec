/** Option, used for JavaScript's null/undefined in the slots that may be absent. */
module Wrappers {

  datatype Option<+T> = None | Some(value: T)
}
