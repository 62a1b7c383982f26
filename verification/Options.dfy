/** Optional values, for fields and results that may be absent. */
module Options {
  datatype Option<+T> = None | Some(value: T)
}
