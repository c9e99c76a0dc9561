/** Optional values, standing for the nullable columns and for "no such row". */
module Wrappers {

  datatype Option<+T> = None | Some(value: T)
}
