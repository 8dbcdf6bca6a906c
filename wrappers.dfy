/** Optional values: a query parameter that may be absent from the request. */
module Wrappers {

  datatype Option<+T> = None | Some(value: T)
}
