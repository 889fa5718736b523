/** Values shared by every part of the model. */
module Common {

  /** An optional value: a JavaScript value that may be `undefined` or `null`. */
  datatype Option<T> = None | Some(value: T)

  /** Document ids (Mongo ObjectIds) and principal ids (the `id` claim of a token),
      compared as strings, as `toString()` does in the source. */
  type Id = string

  /** JavaScript truthiness of a value that is a string when present:
      `undefined`, `null` and `""` are falsy, every other string is truthy. */
  predicate Truthy(s: Option<string>) {
    s.Some? && s.value != ""
  }
}
