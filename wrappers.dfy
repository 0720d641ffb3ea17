/** The optional value used wherever the source accepts `null` or returns it. */
module Wrappers {

  datatype Option<+T> = None | Some(value: T)

  /**
   * JavaScript's `!code` on a `string | null | undefined`: both a missing
   * value and the empty string are falsy.
   */
  predicate Absent(code: Option<string>)
  {
    code.None? || code.value == ""
  }
}
