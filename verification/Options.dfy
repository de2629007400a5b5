/** The one wrapper every module here shares: a value that may be absent, as the
  source writes `T | null`. */
module Options {
  datatype Option<+T> = None | Some(value: T)
}
