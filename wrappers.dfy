/** Optional values, for the source's nullable results and absent entries. */
module Wrappers {

  datatype Option<+T> = None | Some(value: T)

}
