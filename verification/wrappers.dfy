/** The optional value used for "no transition" and for the constructor's
    missing coordinates. */
module Wrappers {

  datatype Option<+T> = None | Some(value: T)
}
