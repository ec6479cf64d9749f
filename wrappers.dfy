/** Optional values: an absent TypeScript property, `undefined` or `null`. */
module Wrappers {

  datatype Option<+T> = None | Some(value: T)
}
