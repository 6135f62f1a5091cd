/** Optional values, used for the source's "not found" / "did not match" outcomes. */
module Wrappers {

  datatype Option<+T> = None | Some(value: T)
}
