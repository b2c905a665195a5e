/** Optional values: a column that is present or absent, a worksheet that exists or not. */
module Options {
  datatype Option<+T> = None | Some(value: T)
}
