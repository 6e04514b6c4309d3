/** The optional values of the source: a `T | null` or `T | undefined` field. */
module Wrappers {

  datatype Option<+T> = None | Some(value: T)

}
