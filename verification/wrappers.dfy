/** Optional values, used for a JSON field that may be absent and for a request that may not be issued. */
module Wrappers {

  datatype Option<+T> = None | Some(value: T)
}
