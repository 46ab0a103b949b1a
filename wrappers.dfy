/** An optional value: a parse that may fail, a block that may not exist. */
module Wrappers {
  datatype Option<T> = None | Some(value: T)
}
