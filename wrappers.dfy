/** Optional values: an absent storage entry, a search that finds nothing. */
module Wrappers {

  datatype Option<+T> = None | Some(value: T)
}
