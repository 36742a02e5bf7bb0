/** An optional value: a JavaScript property that may be missing (`undefined`); `null` is not modelled. */
module Optional {
  datatype Option<+T> = None | Some(value: T)
}
