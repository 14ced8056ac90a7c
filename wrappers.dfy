/** The optional value that stands for a configuration lookup which may yield null. */
module Wrappers {
  datatype Option<+T> = None | Some(value: T)
}
