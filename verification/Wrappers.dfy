/** The optional value shared by all the other modules: null and undefined in the repository. */
module Wrappers {
  datatype Option<+T> = None | Some(value: T)
}
