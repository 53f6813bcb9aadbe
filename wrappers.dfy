/** The optional value used for an absent JSON field and for "no row matched". */
module Wrappers {
  datatype Option<+T> = None | Some(value: T)
}
