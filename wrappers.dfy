/** An optional value, for the references and lookups the game scripts may find missing. */
module Wrappers {
  datatype Option<T> = None | Some(value: T)
}
