/** The optional value shared by the models: Ruby's `nil` or a value. */
module Wrappers {

  datatype Option<+T> = None | Some(value: T)
}
