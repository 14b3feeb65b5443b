/** The usual optional-value datatype, used where the Java code returns null. */
module Wrappers {
  datatype Option<+T> = None | Some(value: T)
}
