/** The optional value used where the Go code gets back a value or an error it then ignores. */
module Wrappers {

  datatype Option<+T> = None | Some(value: T)
}
