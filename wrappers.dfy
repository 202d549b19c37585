/** Optional values: the credential store either holds a user record or nothing. */
module Wrappers {
  datatype Option<+T> = None | Some(value: T)
}
