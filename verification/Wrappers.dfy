/** A value that may be missing: Lua's nil, a search without result. */
module Wrappers {
  datatype Option<+T> = None | Some(value: T)
}
