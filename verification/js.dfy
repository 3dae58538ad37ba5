/**
 * The parts of JavaScript's value semantics that the modelled code depends on:
 * truthiness of optional strings and numbers, numbers that may be NaN,
 * `parseInt`, `parseFloat`, `Math.round`, and the shape of thrown errors.
 */
module Js {
  import opened Wrappers
  import opened Text

  /** A JavaScript string that may be `undefined`/`null` is truthy when present and non-empty. */
  predicate Truthy(o: Option<string>) {
    o.Some? && o.value != ""
  }

  /** `o || d` for an optional string. */
  function OrElse(o: Option<string>, d: string): (r: string)
    ensures Truthy(o) ==> r == o.value
    ensures !Truthy(o) ==> r == d
  {
    if Truthy(o) then o.value else d
  }

  /** `o || d` for an optional number: `0` is falsy like `undefined`. */
  function NumOrElse(o: Option<real>, d: real): (r: real)
    ensures o.Some? && o.value != 0.0 ==> r == o.value
    ensures (o.None? || o.value == 0.0) ==> r == d
  {
    if o.Some? && o.value != 0.0 then o.value else d
  }

  /** Element `i` of an optional array, `undefined` when the array is absent or too short (`a?.[i]`). */
  function At<T>(a: Option<seq<T>>, i: nat): (r: Option<T>)
    ensures r.Some? <==> a.Some? && i < |a.value|
    ensures r.Some? ==> r.value == a.value[i]
  {
    if a.Some? && i < |a.value| then Some(a.value[i]) else None
  }

  /** A JavaScript number that is finite or NaN (the values here never reach infinity). */
  datatype Num = NaN | Val(v: real)

  const Zero: Num := Val(0.0)

  /** `Math.round`: halves round towards positive infinity. */
  function Round(x: Num): (r: Num)
    ensures x.NaN? <==> r.NaN?
    ensures x.Val? ==> x.v - 0.5 < r.v as real <= x.v + 0.5 && r.v == r.v.Floor as real
  {
    match x
    case NaN => NaN
    case Val(v) => Val((v + 0.5).Floor as real)
  }

  /** `x * k` for a finite `k`. */
  function Times(x: Num, k: real): Num {
    match x
    case NaN => NaN
    case Val(v) => Val(v * k)
  }

  /** The white space that `parseInt` and `parseFloat` skip at the start. */
  predicate IsSpace(c: char) {
    c == ' ' || c == '\t' || c == '\n' || c == '\r' || c == '\U{000B}' || c == '\U{000C}' ||
    c == '\U{00A0}' || c == '\U{FEFF}' || c == '\U{2028}' || c == '\U{2029}'
  }

  function TrimStart(s: string): (t: string)
    ensures |t| <= |s| && t == s[|s| - |t|..]
    ensures t != [] ==> !IsSpace(t[0])
  {
    if s != [] && IsSpace(s[0]) then TrimStart(s[1..]) else s
  }

  /** The sign a numeric prefix starts with, and the rest. */
  function SignOf(s: string): (bool, string) {
    if s != [] && s[0] == '-' then (true, s[1..])
    else if s != [] && s[0] == '+' then (false, s[1..])
    else (false, s)
  }

  function Pow10(k: nat): (p: nat)
    ensures p >= 1
  {
    if k == 0 then 1 else 10 * Pow10(k - 1)
  }

  /**
   * `parseInt(s)` with no radix: leading white space, an optional sign, then the
   * longest run of decimal digits; NaN when there is no digit.
   */
  function ParseInt(s: string): Num {
    var (negative, rest) := SignOf(TrimStart(s));
    var digits := LeadingDigits(rest);
    if digits == [] then NaN
    else Val(if negative then -(DigitsValue(digits) as real) else DigitsValue(digits) as real)
  }

  /**
   * `parseFloat(s)`: leading white space, an optional sign, digits, and an optional
   * fraction after '.'; NaN when neither part has a digit.
   */
  function ParseFloat(s: string): Num {
    var (negative, rest) := SignOf(TrimStart(s));
    var whole := LeadingDigits(rest);
    var fraction := FractionDigits(rest[|whole|..]);
    if whole == [] && fraction == [] then NaN
    else
      var magnitude := Magnitude(whole, fraction);
      Val(if negative then -magnitude else magnitude)
  }

  /** The digits of a fraction part: those after a leading '.', if there is one. */
  function FractionDigits(after: string): (d: string)
    ensures AllDigits(d)
  {
    if after != [] && after[0] == '.' then LeadingDigits(after[1..]) else []
  }

  /** The value of `<whole>.<fraction>`. */
  function Magnitude(whole: string, fraction: string): real
    requires AllDigits(whole) && AllDigits(fraction)
  {
    DigitsValue(whole) as real + DigitsValue(fraction) as real / Pow10(|fraction|) as real
  }

  /** A plain digit string parses to the number it denotes. */
  lemma ParseIntOfDigits(s: string)
    requires s != [] && AllDigits(s)
    ensures ParseInt(s) == Val(DigitsValue(s) as real)
  {
    assert !IsSpace(s[0]) && s[0] != '-' && s[0] != '+';
    assert TrimStart(s) == s;
    LeadingDigitsOfDigits(s);
  }

  /** A plain digit string also parses as a float to the number it denotes. */
  lemma ParseFloatOfDigits(s: string)
    requires s != [] && AllDigits(s)
    ensures ParseFloat(s) == Val(DigitsValue(s) as real)
  {
    assert !IsSpace(s[0]) && s[0] != '-' && s[0] != '+';
    assert TrimStart(s) == s;
    assert SignOf(s) == (false, s);
    LeadingDigitsOfDigits(s);
    assert s[|s|..] == [] && FractionDigits([]) == [];
    assert Magnitude(s, []) == DigitsValue(s) as real by {
      assert DigitsValue([]) == 0 && Pow10(0) == 1;
    }
  }

  /** What a thrown error carries: the provider's `response.data.error`, if any, and `message`. */
  datatype Thrown = Thrown(responseError: Option<Details>, message: Option<string>)

  /** An error detail: an object such as `{code: 401, message: ...}`, or a plain string. */
  datatype Details = ErrorObject(code: Option<int>, message: Option<string>) | Text(text: string)

  /** Objects are always truthy; a string detail is truthy when non-empty. */
  predicate DetailsTruthy(d: Details) {
    d.ErrorObject? || d.text != ""
  }

  /** What an awaited provider call does: return a value or throw. */
  datatype Outcome<T> = Returned(value: T) | Threw(error: Thrown)

  /** `new Error(message)`. */
  function PlainError(message: string): (e: Thrown)
    ensures e.responseError.None?
  {
    Thrown(None, Some(message))
  }
}
