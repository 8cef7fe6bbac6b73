/** The conventional Some/None datatype, used where the program has a nullable value. */
module Wrappers {
  datatype Option<+T> = None | Some(value: T)
}
