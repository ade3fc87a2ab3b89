/** The two bits of JavaScript value semantics the bridge leans on. */
module Js {
  import opened Wrappers

  /** A string-or-undefined value in a boolean context: `undefined` and `""` are falsy. */
  predicate Truthy(v: Option<string>) {
    v.Some? && v.value != ""
  }

  /** Property access on a string-keyed record; a missing key reads as `undefined`. */
  function Get(m: map<string, string>, key: string): Option<string> {
    if key in m then Some(m[key]) else None
  }
}
