/** The optional value used for absent dictionary entries and absent sensor fields. */
module Wrappers {
  datatype Option<+T> = None | Some(value: T)
}
