/** The optional value used wherever the Java code returns or stores a possibly-null reference. */
module Wrappers {
  datatype Option<+T> = None | Some(value: T)
}
