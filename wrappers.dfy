/** The optional value used for Go's nil references and zero times. */
module Wrappers {

  datatype Option<T> = None | Some(value: T)
}
