/** Decimal digits and decimal number literals, shared by the JavaScript and the
    Python number parsers of the model. Values are exact (`nat`, `real`). */
module Numerals {
  import opened Wrappers

  predicate IsDigit(c: char) { '0' <= c <= '9' }

  function DigitValue(c: char): (d: nat)
    requires IsDigit(c)
    ensures d <= 9
  {
    c as int - '0' as int
  }

  function DigitChar(d: nat): (c: char)
    requires d <= 9
    ensures IsDigit(c) && DigitValue(c) == d
  {
    ('0' as int + d) as char
  }

  predicate AllDigits(s: seq<char>) { forall i :: 0 <= i < |s| ==> IsDigit(s[i]) }

  /** The value of a string of decimal digits, most significant digit first. */
  function DigitsValue(s: seq<char>): nat
    requires AllDigits(s)
  {
    if s == [] then 0 else DigitsValue(s[..|s| - 1]) * 10 + DigitValue(s[|s| - 1])
  }

  /** The decimal representation of n, without leading zeros. */
  function NatToDigits(n: nat): (s: string)
    ensures 1 <= |s| && AllDigits(s)
    ensures s[0] == '0' ==> n == 0
  {
    if n < 10 then [DigitChar(n)] else NatToDigits(n / 10) + [DigitChar(n % 10)]
  }

  lemma {:induction false} NatToDigitsRoundTrip(n: nat)
    ensures DigitsValue(NatToDigits(n)) == n
  {
    if n >= 10 {
      var s := NatToDigits(n);
      assert s[..|s| - 1] == NatToDigits(n / 10);
      NatToDigitsRoundTrip(n / 10);
    }
  }

  function Pow10(e: nat): (p: nat)
    ensures p >= 1
  {
    if e == 0 then 1 else 10 * Pow10(e - 1)
  }

  /** x multiplied by 10, e times; never negative when x is not. */
  function ScaleUp(x: real, e: nat): (r: real)
    ensures x >= 0.0 ==> r >= x
  {
    if e == 0 then x else ScaleUp(x, e - 1) * 10.0
  }

  /** x divided by 10, e times; never negative when x is not. */
  function ScaleDown(x: real, e: nat): (r: real)
    ensures x >= 0.0 ==> 0.0 <= r <= x
  {
    if e == 0 then x else ScaleDown(x, e - 1) / 10.0
  }

  /** Scaling up e times is multiplying by 10 to the e. */
  lemma {:induction false} ScaleUpIsProduct(x: real, e: nat)
    ensures ScaleUp(x, e) == x * Pow10(e) as real
  {
    if e > 0 {
      ScaleUpIsProduct(x, e - 1);
    }
  }

  /** Scaling down e times is dividing by 10 to the e. */
  lemma {:induction false} ScaleDownIsQuotient(x: real, e: nat)
    ensures ScaleDown(x, e) == x / Pow10(e) as real
  {
    if e > 0 {
      ScaleDownIsQuotient(x, e - 1);
      var p := Pow10(e - 1) as real;
      assert Pow10(e) as real == 10.0 * p;
      assert x / p / 10.0 == x / (10.0 * p);
    }
  }

  /** End of the longest run of digits that starts at index i. */
  function DigitRunEnd(s: seq<char>, i: nat): (j: nat)
    requires i <= |s|
    ensures i <= j <= |s|
    ensures forall k :: i <= k < j ==> IsDigit(s[k])
    ensures j == |s| || !IsDigit(s[j])
    decreases |s| - i
  {
    if i < |s| && IsDigit(s[i]) then DigitRunEnd(s, i + 1) else i
  }

  /** A run that is made of digits and stops before a non-digit is the longest one. */
  lemma {:induction false} DigitRunEndUnique(s: seq<char>, i: nat, j: nat)
    requires i <= j <= |s|
    requires forall k :: i <= k < j ==> IsDigit(s[k])
    requires j == |s| || !IsDigit(s[j])
    ensures DigitRunEnd(s, i) == j
    decreases j - i
  {
    if i < j { DigitRunEndUnique(s, i + 1, j); }
  }

  /** A literal scanned from a string: where it ends and its exact value. */
  datatype Scanned = Scanned(end: nat, value: real)

  /** The longest prefix of s[i..] that is an unsigned decimal literal:
      digits, an optional '.' followed by optional digits (at least one digit
      in all), then an optional exponent 'e' or 'E', an optional sign and at
      least one digit. An exponent marker without digits is not consumed. */
  function ScanUnsignedDecimal(s: seq<char>, i: nat): (r: Option<Scanned>)
    requires i <= |s|
    ensures r.Some? ==> i < r.value.end <= |s| && r.value.value >= 0.0
    ensures r.None? <==> (DigitRunEnd(s, i) == i &&
                          (i == |s| || s[i] != '.' || DigitRunEnd(s, i + 1) == i + 1))
  {
    var j := DigitRunEnd(s, i);
    var hasPoint := j < |s| && s[j] == '.';
    var k := if hasPoint then DigitRunEnd(s, j + 1) else j;
    var frac := if hasPoint then s[j + 1..k] else [];
    if j == i && |frac| == 0 then None
    else
      var mantissa := DigitsValue(s[i..j]) as real + ScaleDown(DigitsValue(frac) as real, |frac|);
      Some(ScanExponent(s, k, mantissa))
  }

  /** Applies an exponent part at index k to the mantissa, when one is present. */
  function ScanExponent(s: seq<char>, k: nat, mantissa: real): (r: Scanned)
    requires k <= |s|
    requires mantissa >= 0.0
    ensures k <= r.end <= |s| && r.value >= 0.0
    ensures r.end == k ==> r.value == mantissa
  {
    if k < |s| && (s[k] == 'e' || s[k] == 'E') then
      var p := if k + 1 < |s| && (s[k + 1] == '+' || s[k + 1] == '-') then k + 2 else k + 1;
      var q := DigitRunEnd(s, p);
      if q == p then Scanned(k, mantissa)
      else
        var e := DigitsValue(s[p..q]);
        if p == k + 2 && s[k + 1] == '-' then Scanned(q, ScaleDown(mantissa, e))
        else Scanned(q, ScaleUp(mantissa, e))
    else Scanned(k, mantissa)
  }

  /** A plain string of digits scans whole, to its own value. */
  lemma ScanDigitString(s: seq<char>)
    requires |s| > 0 && AllDigits(s)
    ensures ScanUnsignedDecimal(s, 0) == Some(Scanned(|s|, DigitsValue(s) as real))
  {
    DigitRunEndUnique(s, 0, |s|);
    assert s[0..|s|] == s;
  }
}
