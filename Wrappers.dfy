/** The optional value used wherever the dashboard keeps a `T | null` cell. */
module Wrappers {
  datatype Option<+T> = None | Some(value: T)
}
