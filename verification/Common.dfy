/** Small shared vocabulary. */
module Common {

  datatype Option<+T> = None | Some(value: T)

  /** An absent value and the empty string both count as "no text". */
  predicate HasText(value: Option<string>) {
    value.Some? && value.value != ""
  }
}
