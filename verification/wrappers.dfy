/** Optional values, used for the attributes and fields the source leaves
    `undefined` or `null`. */
module Wrappers {

  datatype Option<+T> = None | Some(value: T)

}
