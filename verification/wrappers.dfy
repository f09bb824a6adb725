/** Optional values: `None` stands for JavaScript's `null` (or a missing value). */
module Wrappers {
  datatype Option<+T> = None | Some(value: T)
}
