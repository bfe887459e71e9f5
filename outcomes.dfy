/** Result shapes shared by the whole model. */
module Outcomes {

  datatype Option<+T> = None | Some(value: T)

  /** The outcome of one call that may throw: a value, or the thrown error's `message`. */
  datatype Outcome<+T> = Ok(value: T) | Err(message: string)

  /** What a server action hands back to the browser: `{ success: true }` or
      `{ success: false, error }`. An absent `error.message` is the empty string. */
  datatype ActionResult = Succeeded | Failed(error: string)

  /** JavaScript's `s || fallback` on strings: the empty string is falsy. */
  function OrElse(s: string, fallback: string): (r: string)
    ensures r == s || r == fallback
    ensures s != "" ==> r == s
    ensures r != "" <==> s != "" || fallback != ""
  {
    if s != "" then s else fallback
  }

  /** JavaScript truthiness of an optional query parameter (`!secret` is false). */
  predicate Truthy(s: Option<string>)
  {
    s.Some? && s.value != ""
  }
}
