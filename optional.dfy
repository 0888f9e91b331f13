/** The Option type, used for Python's "value or None". */
module Optional {

  datatype Option<+T> = None | Some(value: T)

  /** Python truthiness of a `str | None` value: `None` and `""` are false. */
  predicate Truthy(o: Option<string>)
  {
    o.Some? && o.value != ""
  }
}
