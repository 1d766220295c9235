/** The optional value shared by the modules of this model. */
module Wrappers {

  /** A value that may be absent, as Python's `None` stands for "no value". */
  datatype Option<+T> = None | Some(value: T)
}
