/** The optional value returned by the partial operations of the model. */
module Wrappers {

  datatype Option<+T> = None | Some(value: T)
}
