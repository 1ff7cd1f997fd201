/** The stock optional value; the source writes `T | null` or `T | undefined`. */
module Options {
  datatype Option<+T> = None | Some(value: T)
}
