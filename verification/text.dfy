/**
 * String operations of the JavaScript runtime that the modelled code relies on:
 * decimal digits, `String(n)`, `indexOf`, `replace` with a string pattern,
 * `startsWith`, `split` on one character and `padStart(2, '0')`.
 */
module Text {
  import opened Wrappers

  predicate IsDigit(c: char) { '0' <= c <= '9' }

  predicate AllDigits(s: string) {
    forall i | 0 <= i < |s| :: IsDigit(s[i])
  }

  function DigitValue(c: char): nat
    requires IsDigit(c)
  {
    c as int - '0' as int
  }

  function DigitChar(d: nat): (c: char)
    requires d < 10
    ensures IsDigit(c) && DigitValue(c) == d
  {
    ('0' as int + d) as char
  }

  /** The number a string of decimal digits denotes (most significant digit first). */
  function DigitsValue(s: string): nat
    requires AllDigits(s)
    decreases |s|
  {
    if s == [] then 0 else 10 * DigitsValue(s[..|s| - 1]) + DigitValue(s[|s| - 1])
  }

  /** `String(n)` for a non-negative integer: its shortest decimal rendering. */
  function NatToString(n: nat): (s: string)
    ensures 1 <= |s| && AllDigits(s)
    decreases n
  {
    if n < 10 then [DigitChar(n)] else NatToString(n / 10) + [DigitChar(n % 10)]
  }

  /** `String(i)` for any integer. */
  function IntToString(i: int): (s: string)
    ensures i >= 0 ==> s == NatToString(i)
    ensures i < 0 ==> s == "-" + NatToString(-i)
  {
    if i < 0 then "-" + NatToString(-i) else NatToString(i)
  }

  /** Reading back what `NatToString` wrote gives the number again. */
  lemma {:induction false} NatToStringRoundTrip(n: nat)
    ensures DigitsValue(NatToString(n)) == n
    decreases n
  {
    if n >= 10 {
      var s := NatToString(n);
      assert s[..|s| - 1] == NatToString(n / 10);
      NatToStringRoundTrip(n / 10);
    }
  }

  /** Numbers below 100 render in at most two digits. */
  lemma NatToStringBelow100(n: nat)
    requires n < 100
    ensures |NatToString(n)| <= 2
  {
    if n >= 10 {
      assert NatToString(n) == NatToString(n / 10) + [DigitChar(n % 10)];
    }
  }

  /** Numbers from 1000 to 9999 render in exactly four digits. */
  lemma NatToStringFourDigits(n: nat)
    requires 1000 <= n <= 9999
    ensures |NatToString(n)| == 4
  {
    assert NatToString(n) == NatToString(n / 10) + [DigitChar(n % 10)];
    assert NatToString(n / 10) == NatToString(n / 100) + [DigitChar(n / 10 % 10)];
    assert NatToString(n / 100) == NatToString(n / 1000) + [DigitChar(n / 100 % 10)];
  }

  /** A leading zero does not change the value of a digit string. */
  lemma {:induction false} LeadingZeroValue(s: string)
    requires AllDigits(s)
    ensures AllDigits("0" + s) && DigitsValue("0" + s) == DigitsValue(s)
    decreases |s|
  {
    if s != [] {
      assert ("0" + s)[..|"0" + s| - 1] == "0" + s[..|s| - 1];
      LeadingZeroValue(s[..|s| - 1]);
    }
  }

  /** The longest prefix of `s` made of decimal digits. */
  function LeadingDigits(s: string): (d: string)
    ensures |d| <= |s| && d == s[..|d|] && AllDigits(d)
    ensures |d| < |s| ==> !IsDigit(s[|d|])
  {
    if s != [] && IsDigit(s[0]) then [s[0]] + LeadingDigits(s[1..]) else []
  }

  lemma LeadingDigitsOfDigits(s: string)
    requires AllDigits(s)
    ensures LeadingDigits(s) == s
  {
  }

  predicate OccursAt(s: string, pat: string, i: nat) {
    i + |pat| <= |s| && s[i..i + |pat|] == pat
  }

  predicate StartsWith(s: string, prefix: string) {
    OccursAt(s, prefix, 0)
  }

  /** `s.indexOf(pat, from)`, with `None` for -1. */
  function IndexOfFrom(s: string, pat: string, from: nat): (r: Option<nat>)
    ensures r.Some? ==> from <= r.value && OccursAt(s, pat, r.value)
    ensures r.Some? ==> forall j | from <= j < r.value :: !OccursAt(s, pat, j)
    ensures r.None? ==> forall j | from <= j :: !OccursAt(s, pat, j)
    decreases |s| - from
  {
    if from + |pat| > |s| then None
    else if OccursAt(s, pat, from) then Some(from)
    else IndexOfFrom(s, pat, from + 1)
  }

  function IndexOf(s: string, pat: string): Option<nat> {
    IndexOfFrom(s, pat, 0)
  }

  /** `s.replace(pat, rep)` with a string pattern: only the first occurrence is replaced. */
  function ReplaceFirst(s: string, pat: string, rep: string): (r: string)
    ensures (forall j :: !OccursAt(s, pat, j)) ==> r == s
  {
    match IndexOf(s, pat)
    case None => s
    case Some(i) => s[..i] + rep + s[i + |pat|..]
  }

  /** Removing a prefix that the string starts with leaves the rest. */
  lemma ReplaceFirstAtStart(pat: string, rest: string)
    ensures ReplaceFirst(pat + rest, pat, "") == rest
  {
    assert OccursAt(pat + rest, pat, 0);
    var i := IndexOf(pat + rest, pat);
    assert i == Some(0);
  }

  /** `s.split(sep)` for a one-character separator: the pieces between occurrences. */
  function SplitOn(s: string, sep: char): (parts: seq<string>)
    ensures 1 <= |parts|
    ensures sep !in s ==> parts == [s]
    ensures sep !in parts[0]
    decreases |s|
  {
    if sep !in s then [s]
    else
      var i := IndexOfChar(s, sep);
      [s[..i]] + SplitOn(s[i + 1..], sep)
  }

  function IndexOfChar(s: string, c: char): (i: nat)
    requires c in s
    ensures i < |s| && s[i] == c && c !in s[..i]
  {
    if s[0] == c then 0 else 1 + IndexOfChar(s[1..], c)
  }

  /** Splitting `a + sep + b`, where `a` has no separator, yields `a` and then the pieces of `b`. */
  lemma SplitOnJoined(a: string, sep: char, b: string)
    requires sep !in a
    ensures SplitOn(a + [sep] + b, sep) == [a] + SplitOn(b, sep)
  {
    var s := a + [sep] + b;
    assert s[|a|] == sep;
    var i := IndexOfChar(s, sep);
    assert s[..i] == a;
    assert s[i + 1..] == b;
  }

  /** `s.padStart(2, '0')`. */
  function PadStart2(s: string): (r: string)
    ensures |s| >= 2 ==> r == s
    ensures |s| < 2 ==> |r| == 2 && r[2 - |s|..] == s
  {
    if |s| >= 2 then s else if |s| == 1 then "0" + s else "00"
  }

  /** Padding a rendered number below 100 gives two digits of the same value. */
  lemma PadStart2Value(n: nat)
    requires n < 100
    ensures |PadStart2(NatToString(n))| == 2 && AllDigits(PadStart2(NatToString(n)))
    ensures DigitsValue(PadStart2(NatToString(n))) == n
  {
    NatToStringBelow100(n);
    NatToStringRoundTrip(n);
    if |NatToString(n)| == 1 {
      LeadingZeroValue(NatToString(n));
    }
  }
}
