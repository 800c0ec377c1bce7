/** The optional-value type used for the source's null and NaN sentinels. */
module Wrappers {
  datatype Option<+T> = None | Some(value: T)
}
