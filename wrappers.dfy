/** The optional value used for "absent" results: a phrase that does not split, a storage slot with nothing in it. */
module Wrappers {
  datatype Option<+T> = None | Some(value: T)
}
