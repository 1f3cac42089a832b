/** Optional values, for results the firmware signals by an empty or missing answer. */
module Options {
  datatype Option<+T> = None | Some(value: T)
}
