/** Optional values, used for JavaScript properties that may be unset and
    for numeric parses that may yield NaN. */
module Wrappers {

  datatype Option<+T> = None | Some(value: T)
}
