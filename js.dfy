/**
 * The few JavaScript value rules the console's components rely on:
 * a property that may be `undefined`, truthiness of an optional string,
 * and the `a || b` default.
 */
module Js {

  /** A property that is either `undefined` (None) or holds a value. */
  datatype Option<+T> = None | Some(value: T)

  /** `!!s` for an optional string: `undefined` and `''` are falsy. */
  predicate Truthy(s: Option<string>) {
    s.Some? && s.value != ""
  }

  /** `s || fallback` for an optional string. */
  function OrElse(s: Option<string>, fallback: string): (r: string)
    ensures Truthy(s) ==> r == s.value
    ensures !Truthy(s) ==> r == fallback
  {
    if Truthy(s) then s.value else fallback
  }
}
