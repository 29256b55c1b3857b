/**
 * The few JavaScript value rules the model relies on: numbers that may be
 * NaN, truthiness of optional strings, `a || b` on strings, and
 * `parseInt(s, 10)` on the digits it reads, as an unbounded integer.
 */
module Js {
  import opened Wrappers
  import Text

  /** A JavaScript number; infinities are not modelled. */
  datatype Number = NaN | Num(value: real)

  predicate IsInteger(x: real) { x == x.Floor as real }

  /** An optional string is truthy when it is present and non-empty. */
  predicate Truthy(s: Option<string>) { s.Some? && s.value != "" }

  /** A number is truthy unless it is NaN or zero. */
  predicate TruthyNumber(n: Number) { n.Num? && n.value != 0.0 }

  /** `s || fallback` on an optional string. */
  function Or(s: Option<string>, fallback: string): (r: string)
    ensures Truthy(s) ==> r == s.value
    ensures !Truthy(s) ==> r == fallback
  {
    if Truthy(s) then s.value else fallback
  }

  /** `s || undefined`: an empty string becomes absent. */
  function OrUndefined(s: Option<string>): (r: Option<string>)
    ensures r.Some? <==> Truthy(s)
    ensures r.Some? ==> r == s
  {
    if Truthy(s) then s else None
  }

  /** White space and line terminators that `parseInt` skips. */
  predicate IsWhiteSpace(c: char) {
    c == '\t' || c == '\n' || c == '\U{000B}' || c == '\U{000C}' || c == '\r' || c == ' '
    || c == '\U{00A0}' || c == '\U{1680}' || ('\U{2000}' <= c <= '\U{200A}')
    || c == '\U{2028}' || c == '\U{2029}' || c == '\U{202F}' || c == '\U{205F}'
    || c == '\U{3000}' || c == '\U{FEFF}'
  }

  function TrimStart(s: string): (r: string)
    ensures |r| <= |s| && r == s[|s| - |r|..]
    ensures r == [] || !IsWhiteSpace(r[0])
    decreases |s|
  {
    if |s| > 0 && IsWhiteSpace(s[0]) then TrimStart(s[1..]) else s
  }

  /** The longest prefix of `s` made of decimal digits. */
  function DigitPrefix(s: string): (r: string)
    ensures |r| <= |s| && r == s[..|r|]
    ensures forall i :: 0 <= i < |r| ==> Text.IsDigit(r[i])
    ensures |r| == |s| || !Text.IsDigit(s[|r|])
    decreases |s|
  {
    if |s| > 0 && Text.IsDigit(s[0]) then [s[0]] + DigitPrefix(s[1..]) else []
  }

  /**
   * `parseInt(s, 10)`: skip leading white space, read an optional sign, then
   * the longest run of decimal digits; NaN when there is no digit.
   */
  function ParseInt(s: string): (r: Number) {
    ParseSigned(TrimStart(s))
  }

  function ParseSigned(t: string): (r: Number) {
    if |t| > 0 && t[0] == '-' then Negate(ParseUnsigned(t[1..]))
    else if |t| > 0 && t[0] == '+' then ParseUnsigned(t[1..])
    else ParseUnsigned(t)
  }

  function ParseUnsigned(u: string): (r: Number)
    ensures r.Num? ==> r.value >= 0.0 && IsInteger(r.value)
  {
    var digits := DigitPrefix(u);
    if digits == [] then NaN else Num(Text.DigitsValue(digits) as real)
  }

  function Negate(n: Number): (r: Number) {
    match n
    case NaN => NaN
    case Num(v) => Num(-v)
  }

  lemma {:induction false} DigitPrefixOfDigits(s: string)
    requires forall i :: 0 <= i < |s| ==> Text.IsDigit(s[i])
    ensures DigitPrefix(s) == s
    decreases |s|
  {
    if |s| > 0 {
      DigitPrefixOfDigits(s[1..]);
    }
  }

  lemma DigitIsNotBlank(c: char)
    requires Text.IsDigit(c)
    ensures !IsWhiteSpace(c) && c != '-' && c != '+'
  {
  }

  /** On a run of digits, `parseInt` gives the number the digits denote. */
  lemma ParseIntOfDigits(s: string)
    requires |s| > 0 && forall i :: 0 <= i < |s| ==> Text.IsDigit(s[i])
    ensures ParseInt(s) == Num(Text.DigitsValue(s) as real)
  {
    DigitIsNotBlank(s[0]);
    assert TrimStart(s) == s;
    assert ParseSigned(s) == ParseUnsigned(s);
    DigitPrefixOfDigits(s);
  }

  /** `parseInt` reads back the decimal rendering of every natural. */
  lemma ParseIntOfNatToString(n: nat)
    ensures ParseInt(Text.NatToString(n)) == Num(n as real)
  {
    ParseIntOfDigits(Text.NatToString(n));
    Text.DigitsValueOfNatToString(n);
  }

  /** Text that does not start with a digit (after blanks and a sign) parses to NaN. */
  lemma ParseIntOfNonNumeric(s: string)
    requires s == [] || (!IsWhiteSpace(s[0]) && !Text.IsDigit(s[0]) && s[0] != '-' && s[0] != '+')
    ensures ParseInt(s) == NaN
  {
  }
}
