/** The optional-value type used for the source's "no result" sentinels. */
module Wrappers {

  datatype Option<+T> = None | Some(value: T)
}
