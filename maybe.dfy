/** Optional values: Python's `None` versus a present value. */
module Maybe {
  datatype Option<+T> = None | Some(value: T)
}
