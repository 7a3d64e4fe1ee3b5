/** The optional value used for a DataFrame column that may not exist yet. */
module Wrappers {

  datatype Option<+T> = None | Some(value: T)
}
