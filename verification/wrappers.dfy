/** Optional values: a JavaScript `T | null` or `T | undefined`. */
module Wrappers {

  datatype Option<+T> = None | Some(value: T)

}
