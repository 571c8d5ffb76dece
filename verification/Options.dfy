/** An optional value: the source's infinities, missing keys and nil results. */
module Options {
  datatype Option<+T> = None | Some(value: T)
}
