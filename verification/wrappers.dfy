/** Optional values, standing in for TypeScript's `T | null` and `T | undefined`. */
module Wrappers {

  datatype Option<+T> = None | Some(value: T)

}
