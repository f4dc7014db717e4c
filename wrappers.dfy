/** Optional values, used for Swift optionals (`T?`) and for failable initialisers. */
module Wrappers {

  datatype Option<+T> = None | Some(value: T)
}
