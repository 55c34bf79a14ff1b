/** The optional values the models share: a value the source leaves `undefined` is `None`. */
module Wrappers {
  datatype Option<+T> = None | Some(value: T)
}
