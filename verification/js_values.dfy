/** The JavaScript truthiness rules the page scripts lean on when they read JSON
    fields: `x || d` replaces every falsy value (absent, null, 0, "") by `d`, while
    `x ?? d` replaces only absent and null; `!!x` is true only for a truthy value. */
module JsValues {
  import opened Wrappers

  /** `x || d` on a JSON number: absent, null and 0 all fall back to `d`. */
  function OrInt(x: Option<int>, d: int): (r: int)
    ensures x.Some? && x.value != 0 ==> r == x.value
    ensures x == None || x == Some(0) ==> r == d
  {
    if x.Some? && x.value != 0 then x.value else d
  }

  /** `x || d` on a JSON string: absent, null and "" all fall back to `d`. */
  function OrText(x: Option<string>, d: string): (r: string)
    ensures x.Some? && x.value != "" ==> r == x.value
    ensures x == None || x == Some("") ==> r == d
  {
    if x.Some? && x.value != "" then x.value else d
  }

  /** `!!x` on a JSON boolean: only a present `true` is truthy; absent, null
      and `false` all read as unchecked. */
  predicate Truthy(x: Option<bool>)
    ensures Truthy(x) ==> x.Some? && x.value
    ensures x == None || x == Some(false) ==> !Truthy(x)
  {
    x == Some(true)
  }

  /** JavaScript truthiness of a possibly absent string. */
  predicate NonEmpty(x: Option<string>) {
    x.Some? && x.value != ""
  }
}
