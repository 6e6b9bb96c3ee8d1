/** The optional value used for request-body fields and environment variables. */
module Wrappers {
  datatype Option<+T> = None | Some(value: T)
}

/**
 * The few JavaScript value semantics the contact relay relies on, for values
 * that are either a string or `undefined` (an absent request-body field or an
 * unset environment variable).
 */
module JsValues {
  import opened Wrappers

  /** JavaScript truthiness: `undefined` and the empty string are falsy, every other string is truthy. */
  predicate Truthy(v: Option<string>) {
    v.Some? && v.value != ""
  }

  /** JavaScript `v || fallback` for a string-or-undefined `v` and a string `fallback`. */
  function Or(v: Option<string>, fallback: string): (r: string)
    ensures Truthy(v) ==> r == v.value
    ensures !Truthy(v) ==> r == fallback
    ensures r == "" ==> fallback == ""
  {
    if Truthy(v) then v.value else fallback
  }

  /** What a template literal `${v}` renders: the string itself, or "undefined" when it is unset. */
  function Render(v: Option<string>): (r: string)
    ensures v.Some? ==> r == v.value
    ensures v.None? ==> r == "undefined"
  {
    match v
    case Some(s) => s
    case None => "undefined"
  }
}
