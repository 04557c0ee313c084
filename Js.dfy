/** Values as the front-end's JavaScript sees them: a field that may be
    missing, and the `x || fallback` idiom the code uses to default it. */
module Js {

  /** A JSON field or storage entry that may be absent (`undefined`/`null`). */
  datatype Option<+T> = None | Some(value: T)

  /** `x || fallback` for a string field: JavaScript treats a missing value
      and the empty string alike as falsy, so both give the fallback. */
  function OrDefault(x: Option<string>, fallback: string): (r: string)
    ensures x.Some? && x.value != "" ==> r == x.value
    ensures x.None? || x.value == "" ==> r == fallback
  {
    if x.Some? && x.value != "" then x.value else fallback
  }

  /** `x || 0` for a numeric field: a missing value gives 0, a present 0
      gives 0 as well, any other number is kept. */
  function OrZero(x: Option<int>): (r: int)
    ensures x.Some? ==> r == x.value
    ensures x.None? ==> r == 0
  {
    if x.Some? then x.value else 0
  }

  /** JavaScript truthiness of an optional string: present and non-empty. */
  predicate Truthy(x: Option<string>)
  {
    x.Some? && x.value != ""
  }
}
