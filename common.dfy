/** Values shared by the page controllers: optional values and the
    JavaScript truthiness of a string that may be absent. */
module Common {

  datatype Option<T> = None | Some(value: T)

  /** A value that is a string or absent (`null`/`undefined`) is truthy in
      JavaScript exactly when it is present and not the empty string. */
  predicate Truthy(v: Option<string>)
  {
    v.Some? && v.value != ""
  }
}
