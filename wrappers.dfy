/** The absent/present result of the bounds-checked lookups. */
module Wrappers {

  datatype Option<+T> = None | Some(value: T)
}
