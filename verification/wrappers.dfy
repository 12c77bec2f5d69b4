/** An optional value, shared by the contract models. */
module Wrappers {

  /** A value that may be missing: `None` stands for a call that reverts. */
  datatype Option<+T> = None | Some(value: T)
}
