/** An optional value: the model's stand-in for TypeScript's `T | null` and `T | undefined`. */
module Options {
  datatype Option<+T> = None | Some(value: T)
}
