/** The optional value used wherever the Java code stores or returns a nullable reference. */
module Wrappers {
  datatype Option<+T> = None | Some(value: T)
}
