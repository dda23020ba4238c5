/** A value that may be missing, for the Java references that callers may pass as null. */
module Wrappers {

  datatype Option<+T> = None | Some(value: T)
}
