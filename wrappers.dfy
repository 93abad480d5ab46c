/** The optional-value datatype shared by the modules of the monitor model. */
module Wrappers {

  datatype Option<+T> = None | Some(value: T)
}
