/** Optional values, standing for the source's nil pointers and nil maps. */
module Wrappers {

  datatype Option<+T> = None | Some(value: T)
}
