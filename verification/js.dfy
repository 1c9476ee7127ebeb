/**
 * The few JavaScript value semantics the service's logic depends on: parsed JSON
 * values and the state of a data file, truthiness, `Number(string)`, the `||`
 * fallback on optional strings, and reading an array element by index.
 */
module Js {
  import opened Wrappers
  import opened Text

  /** A parsed JSON value. Numbers are integers here; fractions are not modelled. */
  datatype Json =
    | JNull
    | JBool(b: bool)
    | JNumber(n: int)
    | JString(s: string)
    | JArray(items: seq<Json>)
    | JObject(fields: map<string, Json>)

  /**
   * A data file as seen at start-up: not present, present but unreadable or not
   * valid JSON (reading or `JSON.parse` threw), or parsed to a value.
   */
  datatype Stored = Missing | Unreadable | Parsed(value: Json)

  /** JavaScript truthiness of a JSON value (`!v` is false). */
  predicate Truthy(v: Json) {
    match v
    case JNull => false
    case JBool(b) => b
    case JNumber(n) => n != 0
    case JString(s) => s != ""
    case JArray(_) => true
    case JObject(_) => true
  }

  /** `v.name` when `v` is an object that has a numeric field `name`. */
  function NumberField(v: Json, name: string): Option<int> {
    if v.JObject? && name in v.fields && v.fields[name].JNumber? then Some(v.fields[name].n) else None
  }

  /**
   * `Number(s)` for the strings the service produces or might meet: the empty
   * string is 0, a string of decimal digits is its value, anything else is NaN
   * (`None`).
   */
  function NumberOf(s: string): Option<nat> {
    if AllDigits(s) then Some(DigitsValue(s)) else None
  }

  /** `Number(String(n))` is `n`: a rendered natural number reads back as itself. */
  lemma NumberOfDecimal(n: nat)
    ensures NumberOf(Decimal(n)) == Some(n)
  {
    DecimalRoundTrip(n);
  }

  /** A string that is present and not empty, so truthy. */
  predicate NonEmpty(x: Option<string>) {
    x.Some? && x.value != ""
  }

  /** `x || fallback` where `x` is a string or `undefined`: the empty string is falsy too. */
  function OrElse(x: Option<string>, fallback: string): (r: string)
    ensures r == fallback || Some(r) == x
    ensures fallback != "" ==> r != ""
  {
    if NonEmpty(x) then x.value else fallback
  }

  /** `a[i]`: the element, or `undefined` outside the array. */
  function ElementAt<T>(a: seq<T>, i: int): (r: Option<T>)
    ensures r.Some? ==> r.value in a
  {
    if 0 <= i < |a| then Some(a[i]) else None
  }

  /** `Math.floor(roll * n)`, the usual random-index idiom, with exact arithmetic. */
  function FloorScaled(roll: real, n: nat): int {
    (roll * n as real).Floor
  }

  /** For a roll in [0, 1) the scaled index lies in [0, n). */
  lemma FloorScaledInRange(roll: real, n: nat)
    requires 0.0 <= roll < 1.0
    requires n > 0
    ensures 0 <= FloorScaled(roll, n) < n
  {
    var x := roll * n as real;
    assert 0.0 <= x;
    assert n as real - x == (1.0 - roll) * n as real;
    assert (1.0 - roll) * n as real > 0.0;
  }
}
