/** The optional value used where an operation of the model can come back empty. */
module Wrappers {

  datatype Option<+T> = None | Some(value: T)
}
