/** Optional values: `None` stands for JavaScript's `null` (or a missing entry). */
module Wrappers {

  datatype Option<+T> = None | Some(value: T)
}
