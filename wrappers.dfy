/** Small helper datatypes shared by the model's modules. */
module Wrappers {

  /** A value that may be absent: JavaScript's `undefined`, or `NaN` from `parseInt`. */
  datatype Option<+T> = None | Some(value: T)

  /** JavaScript truthiness of an optional string: absent and "" are falsy. */
  predicate Truthy(s: Option<string>) {
    s.Some? && s.value != ""
  }

  /** `a || b` for an optional string and a fallback string. */
  function OrElse(a: Option<string>, fallback: string): (r: string)
    ensures Truthy(a) ==> r == a.value
    ensures !Truthy(a) ==> r == fallback
    ensures r == "" ==> fallback == ""
  {
    if Truthy(a) then a.value else fallback
  }
}
