/** Optional values: `None` stands for an operation that panics. */
module Wrappers {

  datatype Option<+T> = None | Some(value: T)
}
