/** The absent-or-present value used for the session slots, which start as None. */
module Wrappers {

  datatype Option<+T> = None | Some(value: T)
}
