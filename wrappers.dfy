/** Optional values, standing in for JavaScript's `null` results (a failed regex match, a missing map entry). */
module Wrappers {

  datatype Option<+T> = None | Some(value: T)
}
