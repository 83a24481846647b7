/** Optional values: `None` stands for a missing cell or a failed parse. */
module Wrappers {

  datatype Option<+T> = None | Some(value: T)
}
