/** The optional value used for `string | null` fields and for steps that may throw. */
module Options {
  datatype Option<+T> = None | Some(value: T)
}
