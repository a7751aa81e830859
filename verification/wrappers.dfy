/** The optional value returned by the table lookups (`find` that may come back empty). */
module Wrappers {
  datatype Option<+T> = None | Some(value: T)
}
