/** The optional value the parsers return: None where the Java code would throw. */
module Wrappers {
  datatype Option<+T> = None | Some(value: T)
}
