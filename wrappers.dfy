/** Optional values: the model's counterpart of TypeScript's `field?: T` and `T | null`. */
module Wrappers {

  datatype Option<+T> = None | Some(value: T)
}
