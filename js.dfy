/** The two pieces of JavaScript string semantics the console relies on:
    truthiness of a possibly missing string, and the `a || b` fallback. */
module Js {
  import opened Wrappers

  /** `!!v` for a value that is a string or null/undefined: null, undefined and "" are falsy. */
  predicate Truthy(v: Option<string>) {
    v.Some? && v.value != ""
  }

  /** `v || fallback` where `v` is a string or null/undefined. */
  function Or(v: Option<string>, fallback: string): (r: string)
    ensures Truthy(v) ==> r == v.value
    ensures !Truthy(v) ==> r == fallback
    ensures r == "" ==> fallback == ""
  {
    if Truthy(v) then v.value else fallback
  }
}
