/** The conventional Some/None datatype, used where the original program
    returns `null` or would fail on an `undefined` value. */
module Wrappers {

  datatype Option<+T> = None | Some(value: T)
}
