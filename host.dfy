/** Values the host runtime hands to a control: nullable strings and the `raw || ""` idiom. */
module Host {

  /** A value that may be absent (JavaScript `null` or `undefined`). */
  datatype Option<T> = None | Some(value: T)

  /**
   * `raw || ""` for a bound text property: a null raw value and the empty
   * string both give the empty string, any other string is kept.
   */
  function OrEmpty(raw: Option<string>): (r: string)
    ensures raw.Some? ==> r == raw.value
    ensures raw.None? ==> r == ""
  {
    match raw
    case Some(s) => if s == "" then "" else s
    case None => ""
  }
}
