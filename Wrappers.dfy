/** Optional values: a JavaScript `null` (or an absent storage entry) is `None`. */
module Wrappers {
  datatype Option<+T> = None | Some(value: T)
}
