/** The optional value used throughout the model for JavaScript's `null`/`undefined`. */
module Options {

  datatype Option<+T> = None | Some(value: T)

  /** JavaScript truthiness of an optional string: `null`, `undefined` and `''` are falsy. */
  predicate Presente(s: Option<string>)
  {
    s.Some? && s.value != ""
  }
}
