/** Optional values, used for the grammar's element references (`elem.get()`). */
module Wrappers {

  datatype Option<+T> = None | Some(value: T)
}
