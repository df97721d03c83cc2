/** A value that may be absent: stands for the source's nullable references and strings. */
module Wrappers {
  datatype Option<T> = None | Some(value: T)
}
