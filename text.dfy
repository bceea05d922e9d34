/**
 * String helpers with the meaning JavaScript gives them: `String.prototype.trim`,
 * `split(c).join(d)`, ASCII lower-casing, `Number(s)` on integer strings and the
 * decimal rendering of a natural number.
 */
module Text {
  import opened Wrappers

  /** The characters `String.prototype.trim` removes: white space and line terminators. */
  predicate IsJsWhitespace(c: char) {
    c == ' ' || c == '\t' || c == '\n' || c == '\r' || c == '\U{B}' || c == '\U{C}'
    || c == '\U{A0}' || c == '\U{FEFF}' || c == '\U{1680}' || ('\U{2000}' <= c <= '\U{200A}')
    || c == '\U{2028}' || c == '\U{2029}' || c == '\U{202F}' || c == '\U{205F}' || c == '\U{3000}'
  }

  /** `s` with its leading white space removed. */
  function TrimStart(s: string): (r: string)
    ensures |r| <= |s|
    ensures r == [] || !IsJsWhitespace(r[0])
    decreases |s|
  {
    if s != [] && IsJsWhitespace(s[0]) then TrimStart(s[1..]) else s
  }

  /** What `TrimStart` keeps is a suffix, and everything before it is white space. */
  lemma {:induction false} TrimStartDropsBlank(s: string)
    ensures TrimStart(s) == s[|s| - |TrimStart(s)|..]
    ensures forall k :: 0 <= k < |s| - |TrimStart(s)| ==> IsJsWhitespace(s[k])
    decreases |s|
  {
    if s != [] && IsJsWhitespace(s[0]) {
      TrimStartDropsBlank(s[1..]);
    }
  }

  /** `s` with its trailing white space removed. */
  function TrimEnd(s: string): (r: string)
    ensures |r| <= |s|
    ensures r == [] || !IsJsWhitespace(r[|r| - 1])
    decreases |s|
  {
    if s != [] && IsJsWhitespace(s[|s| - 1]) then TrimEnd(s[..|s| - 1]) else s
  }

  /** What `TrimEnd` keeps is a prefix, and everything after it is white space. */
  lemma {:induction false} TrimEndDropsBlank(s: string)
    ensures TrimEnd(s) == s[..|TrimEnd(s)|]
    ensures forall k :: |TrimEnd(s)| <= k < |s| ==> IsJsWhitespace(s[k])
    decreases |s|
  {
    if s != [] && IsJsWhitespace(s[|s| - 1]) {
      TrimEndDropsBlank(s[..|s| - 1]);
    }
  }

  /** `s.trim()`: `s` without white space at either end. */
  function Trim(s: string): (r: string)
    ensures |r| <= |s|
    ensures r == [] || (!IsJsWhitespace(r[0]) && !IsJsWhitespace(r[|r| - 1]))
  {
    var t := TrimStart(s);
    TrimEndDropsBlank(t);
    TrimEnd(t)
  }

  /** Trimming leaves nothing exactly when the string is all white space. */
  lemma TrimEmptyIffBlank(s: string)
    ensures Trim(s) == [] <==> forall k :: 0 <= k < |s| ==> IsJsWhitespace(s[k])
  {
    var t := TrimStart(s);
    TrimStartDropsBlank(s);
    TrimEndDropsBlank(t);
    if t != [] {
      assert t[0] == s[|s| - |t|];
    }
  }

  /** Trimming an already trimmed string changes nothing. */
  lemma TrimIdempotent(s: string)
    ensures Trim(Trim(s)) == Trim(s)
  {
    var r := Trim(s);
    var t := TrimStart(s);
    TrimEndDropsBlank(t);
    if r != [] {
      assert r[0] == t[0];
      assert TrimStart(r) == r;
    }
  }

  /** `s` with every `from` replaced by `to`, position by position. */
  function ReplaceChar(s: string, from: char, to: char): (r: string)
    ensures |r| == |s|
    ensures forall k :: 0 <= k < |s| ==> r[k] == if s[k] == from then to else s[k]
  {
    if s == [] then [] else [if s[0] == from then to else s[0]] + ReplaceChar(s[1..], from, to)
  }

  /** `s.split(sep)`: the pieces between occurrences of `sep`; `"".split(sep)` is `[""]`. */
  function Split(s: string, sep: char): (r: seq<string>)
    ensures |r| >= 1
    decreases |s|
  {
    if s == [] then [""]
    else
      var rest := Split(s[1..], sep);
      if s[0] == sep then [""] + rest else [[s[0]] + rest[0]] + rest[1..]
  }

  /** `parts.join(sep)`. */
  function Join(parts: seq<string>, sep: string): string
  {
    if |parts| == 0 then ""
    else if |parts| == 1 then parts[0]
    else parts[0] + sep + Join(parts[1..], sep)
  }

  /** `s.split(from).join(to)` replaces every `from` by `to` and keeps the order. */
  lemma {:induction false} SplitJoinIsReplace(s: string, from: char, to: char)
    ensures Join(Split(s, from), [to]) == ReplaceChar(s, from, to)
  {
    if s != [] {
      SplitJoinIsReplace(s[1..], from, to);
      var rest := Split(s[1..], from);
      if s[0] != from && |rest| > 1 {
        assert Join(rest, [to]) == rest[0] + [to] + Join(rest[1..], [to]);
        assert [[s[0]] + rest[0]] + rest[1..] == [[s[0]] + rest[0]] + rest[1..];
      }
    }
  }

  /** The first piece of `s.split(sep)` is the prefix of `s` before the first `sep`. */
  lemma {:induction false} SplitHead(s: string, sep: char)
    ensures |Split(s, sep)[0]| <= |s|
    ensures Split(s, sep)[0] == s[..|Split(s, sep)[0]|]
    ensures sep !in Split(s, sep)[0]
    ensures |Split(s, sep)[0]| == |s| || s[|Split(s, sep)[0]|] == sep
  {
    if s != [] {
      SplitHead(s[1..], sep);
      var rest := Split(s[1..], sep);
      if s[0] != sep {
        assert Split(s, sep)[0] == [s[0]] + rest[0];
        assert s == [s[0]] + s[1..];
      }
    }
  }

  /** ASCII lower-casing, as `toLowerCase` does on ASCII letters. */
  function Lower(s: string): (r: string)
    ensures |r| == |s|
    ensures forall k :: 0 <= k < |s| ==> r[k] == if 'A' <= s[k] <= 'Z' then (s[k] as int + 32) as char else s[k]
  {
    if s == [] then [] else [if 'A' <= s[0] <= 'Z' then (s[0] as int + 32) as char else s[0]] + Lower(s[1..])
  }

  lemma LowerIdempotent(s: string)
    ensures Lower(Lower(s)) == Lower(s)
  {
  }

  predicate IsDigit(c: char) { '0' <= c <= '9' }

  function DigitValue(c: char): (d: nat)
    requires IsDigit(c)
    ensures d < 10
  {
    c as int - '0' as int
  }

  /** The value of a run of decimal digits, most significant first. */
  function DigitsValue(ds: string): (v: nat)
    requires forall k :: 0 <= k < |ds| ==> IsDigit(ds[k])
    decreases |ds|
  {
    if ds == [] then 0
    else DigitsValue(ds[..|ds| - 1]) * 10 + DigitValue(ds[|ds| - 1])
  }

  /** The decimal rendering of `n`, without leading zeros. */
  function NatToString(n: nat): (s: string)
    ensures |s| >= 1 && forall k :: 0 <= k < |s| ==> IsDigit(s[k])
    ensures |s| > 1 ==> s[0] != '0'
  {
    if n < 10 then [('0' as int + n) as char]
    else NatToString(n / 10) + [('0' as int + n % 10) as char]
  }

  /** Reading back the rendering of `n` gives `n`. */
  lemma {:induction false} NatToStringRoundTrip(n: nat)
    ensures DigitsValue(NatToString(n)) == n
  {
    if n >= 10 {
      NatToStringRoundTrip(n / 10);
      var s := NatToString(n);
      assert s[..|s| - 1] == NatToString(n / 10);
    }
  }

  /** What follows the optional leading sign. */
  function Unsigned(s: string): string {
    if s != [] && (s[0] == '+' || s[0] == '-') then s[1..] else s
  }

  /** An optionally signed, non-empty run of decimal digits. */
  predicate IsIntegerLiteral(s: string) {
    Unsigned(s) != [] && forall k :: 0 <= k < |Unsigned(s)| ==> IsDigit(Unsigned(s)[k])
  }

  /**
   * `Number(s)` for the strings this model reads as numbers: after trimming,
   * the empty string is 0 and an integer literal is its value; `None` is NaN.
   */
  function JsNumber(s: string): (r: Option<int>)
    ensures Trim(s) == [] ==> r == Some(0)
    ensures Trim(s) != [] ==> (r.Some? <==> IsIntegerLiteral(Trim(s)))
    ensures r.Some? && Trim(s) != [] ==>
      r.value == (if Trim(s)[0] == '-' then -1 else 1) * DigitsValue(Unsigned(Trim(s)))
  {
    var t := Trim(s);
    if t == [] then Some(0)
    else if !IsIntegerLiteral(t) then None
    else
      var magnitude: int := DigitsValue(Unsigned(t));
      Some(if t[0] == '-' then -magnitude else magnitude)
  }

  /** Leading zeros add nothing to the value of a run of digits. */
  lemma {:induction false} LeadingZeroIgnored(ds: string)
    requires forall k :: 0 <= k < |ds| ==> IsDigit(ds[k])
    ensures DigitsValue(['0'] + ds) == DigitsValue(ds)
    decreases |ds|
  {
    if ds == [] {
      assert (['0'] + ds)[..0] == [];
    } else {
      var init := ds[..|ds| - 1];
      assert (['0'] + ds)[..|ds|] == ['0'] + init;
      LeadingZeroIgnored(init);
    }
  }

  /** A string with no white space at either end is its own trim. */
  lemma TrimOfUnpadded(s: string)
    requires s != [] && !IsJsWhitespace(s[0]) && !IsJsWhitespace(s[|s| - 1])
    ensures Trim(s) == s
  {
    assert TrimStart(s) == s;
  }

  /** `Number(String(n))` is `n` for every natural number. */
  lemma JsNumberOfNat(n: nat)
    ensures JsNumber(NatToString(n)) == Some(n)
  {
    var s := NatToString(n);
    assert IsDigit(s[0]) && IsDigit(s[|s| - 1]);
    TrimOfUnpadded(s);
    assert Unsigned(s) == s;
    NatToStringRoundTrip(n);
  }

  /** `Number` of an integer literal without surrounding white space: the sign applied to the digits' value. */
  lemma JsNumberOfLiteral(t: string)
    requires IsIntegerLiteral(t)
    ensures JsNumber(t) == Some((if t[0] == '-' then -1 else 1) * DigitsValue(Unsigned(t)))
  {
    var u := Unsigned(t);
    assert IsDigit(u[|u| - 1]) && t[|t| - 1] == u[|u| - 1];
    assert IsDigit(t[0]) || t[0] == '+' || t[0] == '-';
    TrimOfUnpadded(t);
  }

  /** `Number("-" + String(n))` is `-n`. */
  lemma JsNumberOfNegatedNat(n: nat)
    ensures JsNumber(['-'] + NatToString(n)) == Some(-(n as int))
  {
    var s := NatToString(n);
    var t := ['-'] + s;
    assert Unsigned(t) == s;
    JsNumberOfLiteral(t);
    NatToStringRoundTrip(n);
  }

  /** `Number("+" + String(n))` is `n`. */
  lemma JsNumberOfPlusNat(n: nat)
    ensures JsNumber(['+'] + NatToString(n)) == Some(n)
  {
    var s := NatToString(n);
    var t := ['+'] + s;
    assert Unsigned(t) == s;
    JsNumberOfLiteral(t);
    NatToStringRoundTrip(n);
  }

  /** A leading zero changes nothing: `Number("0" + String(n))` is `n`. */
  lemma JsNumberOfZeroPaddedNat(n: nat)
    ensures JsNumber(['0'] + NatToString(n)) == Some(n)
  {
    var s := NatToString(n);
    var t := ['0'] + s;
    assert Unsigned(t) == t;
    assert forall k :: 0 <= k < |t| ==> IsDigit(t[k]);
    JsNumberOfLiteral(t);
    LeadingZeroIgnored(s);
    NatToStringRoundTrip(n);
  }
}
