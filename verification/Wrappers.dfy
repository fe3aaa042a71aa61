/** A value that may be missing: what the program writes as a nil pointer, a zero time or a false `ok`. */
module Wrappers {

  datatype Option<+T> = None | Some(value: T)
}
