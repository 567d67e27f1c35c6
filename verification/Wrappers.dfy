/** A value that may be absent, as the models of several files use it. */
module Wrappers {

  datatype Option<T> = None | Some(value: T)
}
