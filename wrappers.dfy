/** The absent marker the storage layer returns instead of `null`. */
module Wrappers {

  datatype Option<+T> = None | Some(value: T)
}
