/** Optional values, for arguments and lookups that Python represents with `None`. */
module Wrappers {

  datatype Option<+T> = None | Some(value: T)
}
