/** Option: the outcome of a computation that may be abandoned by an exception. */
module Wrappers {

  datatype Option<+T> = None | Some(value: T)
}
