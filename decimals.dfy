/**
 * Exact decimal amounts: Decimal(str) for plain decimal literals, and the
 * two-fractional-digit rendering of f"{d:.2f}" under the default context's
 * ROUND_HALF_EVEN rounding.
 */
module Decimals {
  import opened Results
  import opened Text

  /** The error text of decimal.InvalidOperation raised by Decimal(str) on a malformed literal. */
  const ConversionSyntax := "[<class 'decimal.ConversionSyntax'>]"

  /** Position of the first '.', or |s| when there is none. */
  function DotIndex(s: string): (k: nat)
    ensures k <= |s|
    ensures k < |s| ==> s[k] == '.'
    ensures forall i :: 0 <= i < k ==> s[i] != '.'
  {
    if s == [] then 0 else if s[0] == '.' then 0 else 1 + DotIndex(s[1..])
  }

  /** An unsigned literal: digits, optionally a '.' and more digits, at least one digit in all. */
  function ParseUnsigned(s: string): (r: Option<real>)
    ensures r.Some? ==> r.value >= 0.0
  {
    var k := DotIndex(s);
    var whole := s[..k];
    var frac := if k < |s| then s[k + 1..] else "";
    if AllDigits(whole) && AllDigits(frac) && |whole| + |frac| > 0 then Some(DigitsValue(whole, frac))
    else None
  }

  /** The value of the digits before and after the point. */
  function DigitsValue(whole: string, frac: string): real
    requires AllDigits(whole) && AllDigits(frac)
  {
    ParseDigits(whole) as real + ParseDigits(frac) as real / Pow10(|frac|) as real
  }

  /** Decimal(s) for a literal with an optional sign; None where Decimal raises. */
  function ParseDecimal(s: string): Option<real> {
    if |s| > 0 && (s[0] == '-' || s[0] == '+') then
      match ParseUnsigned(s[1..])
      case None => None
      case Some(u) => Some(if s[0] == '-' then -u else u)
    else ParseUnsigned(s)
  }

  /** Rounds a non-negative amount to the nearest integer, ties to the even one. */
  function RoundHalfEven(y: real): (n: nat)
    requires y >= 0.0
    ensures y - 0.5 <= n as real <= y + 0.5
    ensures y.Floor as real == y ==> n as real == y
    ensures y - y.Floor as real == 0.5 ==> n % 2 == 0
  {
    var f := y.Floor;
    var rest := y - f as real;
    if rest < 0.5 then f
    else if rest > 0.5 then f + 1
    else if f % 2 == 0 then f
    else f + 1
  }

  function Abs(x: real): real {
    if x < 0.0 then -x else x
  }

  /** f"{x:.2f}": the sign of a negative amount, whole units, '.', two digits of hundredths. */
  function Fixed2(x: real): string {
    var u := Cents2(RoundHalfEven(Abs(x) * 100.0));
    if x < 0.0 then "-" + u else u
  }

  /** c hundredths as whole units, '.', and two digits. */
  function Cents2(c: nat): string {
    NatToString(c / 100) + "." + Pad2(c % 100)
  }

  /** In digits, '.', then anything, the first '.' is the one after the digits. */
  lemma DottedParts(a: string, b: string)
    requires AllDigits(a)
    ensures var s := a + "." + b; DotIndex(s) == |a| && s[..|a|] == a && s[|a| + 1..] == b
  {
    var s := a + "." + b;
    assert s[|a|] == '.';
    assert forall i :: 0 <= i < |a| ==> s[i] == a[i];
    assert s[..|a|] == a;
    assert s[|a| + 1..] == b;
  }

  /** Two digits after the point are hundredths. */
  lemma TwoPlacesValue(w: string, f: string)
    requires AllDigits(w) && AllDigits(f) && |f| == 2
    ensures DigitsValue(w, f) == ParseDigits(w) as real + ParseDigits(f) as real / 100.0
  {
    assert Pow10(|f|) == 100 by {
      assert Pow10(2) == 100;
    }
    OverHundred(ParseDigits(w) as real, ParseDigits(f) as real, Pow10(|f|));
  }

  lemma OverHundred(a: real, b: real, d: nat)
    requires d == 100
    ensures a + b / d as real == a + b / 100.0
  {
  }

  /** Digits, '.', digits: the value of the two runs of digits. */
  lemma ParseDotted(w: string, f: string)
    requires AllDigits(w) && AllDigits(f) && |w| + |f| > 0
    ensures ParseUnsigned(w + "." + f) == Some(DigitsValue(w, f))
  {
    DottedParts(w, f);
  }

  lemma CentsValue(c: nat)
    ensures (c / 100) as real + (c % 100) as real / 100.0 == c as real / 100.0
  {
    assert c == (c / 100) * 100 + c % 100;
  }

  /** For an amount of whole cents, the rounding in Fixed2 is exact. */
  lemma WholeCentsExact(x: real, k: int)
    requires x * 100.0 == k as real
    ensures RoundHalfEven(Abs(x) * 100.0) as real == Abs(x) * 100.0
  {
    var a := if k < 0 then -k else k;
    assert Abs(x) * 100.0 == a as real;
    assert (a as real).Floor == a;
  }

  /** The unsigned part of the rendering reads back as c hundredths. */
  lemma UnsignedRoundTrip(c: nat)
    ensures ParseUnsigned(Cents2(c)) == Some(c as real / 100.0)
    ensures IsDigit(Cents2(c)[0])
  {
    var w, f := NatToString(c / 100), Pad2(c % 100);
    ParseDotted(w, f);
    TwoPlacesValue(w, f);
    NatToStringRoundTrip(c / 100);
    CentsValue(c);
    assert Cents2(c)[0] == w[0];
  }

  lemma ParseSigned(u: string, y: real)
    requires |u| > 0 && IsDigit(u[0]) && ParseUnsigned(u) == Some(y)
    ensures ParseDecimal(u) == Some(y)
    ensures ParseDecimal("-" + u) == Some(-y)
  {
    assert ("-" + u)[1..] == u;
  }

  /** An amount of whole cents (at most two fractional digits) renders as text that reads back as the same Decimal. */
  lemma Fixed2RoundTrip(x: real, k: int)
    requires x * 100.0 == k as real
    ensures ParseDecimal(Fixed2(x)) == Some(x)
  {
    var c := RoundHalfEven(Abs(x) * 100.0);
    WholeCentsExact(x, k);
    assert c as real / 100.0 == Abs(x);
    UnsignedRoundTrip(c);
    ParseSigned(Cents2(c), Abs(x));
  }

  lemma Fixed2OfZero()
    ensures Fixed2(0.0) == "0.00"
  {
    assert RoundHalfEven(0.0) == 0;
  }
}
