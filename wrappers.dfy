/** The conventional optional-value datatype, used for attributes that may be
    absent and for results that may be missing. */
module Wrappers {

  datatype Option<+T> = None | Some(value: T)
}
