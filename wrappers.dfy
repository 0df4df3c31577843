/** The source's `T | null` and `T | undefined` values, as an option type. */
module Wrappers {
  datatype Option<+T> = None | Some(value: T)
}
