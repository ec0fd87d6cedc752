/** The optional value returned by `find`, `file_name` and a module analyzer. */
module Wrappers {

  datatype Option<+T> = None | Some(value: T)
}
