/** JavaScript values as the pages see them: numbers with their non-finite
    members, the values a Firestore document or a React state field can hold,
    truthiness, optional-chaining property access and the three number
    conversions the pages use (`parseFloat`, `parseInt(_, 10)` and the
    implicit conversion done by `<`). Finite numbers are exact reals. */
module JsValues {
  import opened Wrappers
  import opened Numerals

  /** A JavaScript number: finite, an infinity, or NaN. Finite values are exact. */
  datatype Num = Finite(r: real) | PosInf | NegInf | NaN

  /** `a + b` on JavaScript numbers. */
  function Add(a: Num, b: Num): Num
  {
    match (a, b)
    case (Finite(x), Finite(y)) => Finite(x + y)
    case (NaN, _) => NaN
    case (_, NaN) => NaN
    case (PosInf, NegInf) => NaN
    case (NegInf, PosInf) => NaN
    case (PosInf, _) => PosInf
    case (_, PosInf) => PosInf
    case (NegInf, _) => NegInf
    case (_, NegInf) => NegInf
  }

  /** `a < b` on JavaScript numbers: false whenever NaN takes part. */
  predicate Less(a: Num, b: Num) {
    match (a, b)
    case (NaN, _) => false
    case (_, NaN) => false
    case (Finite(x), Finite(y)) => x < y
    case (NegInf, NegInf) => false
    case (NegInf, _) => true
    case (_, PosInf) => !a.PosInf?
    case (_, _) => false
  }

  /** `n > 0` holds exactly of the positive finite numbers and +Infinity. */
  predicate Positive(n: Num) { Less(Finite(0.0), n) }

  /** `n <= 0`, which JavaScript evaluates as `!(n > 0)` except that NaN makes it false. */
  predicate AtMostZero(n: Num) { !n.NaN? && !Positive(n) }

  /** A value held by a Firestore document, a parsed JSON body or a React
      state field. `Undefined` stands for a missing property. */
  datatype Value =
    | Undefined
    | Null
    | Bool(b: bool)
    | Number(n: Num)
    | Str(s: string)
    | Array(items: seq<Value>)
    | Object(fields: map<string, Value>)

  /** JavaScript truthiness: `!v` is `!Truthy(v)`. */
  predicate Truthy(v: Value) {
    match v
    case Undefined => false
    case Null => false
    case Bool(b) => b
    case Number(n) => n.PosInf? || n.NegInf? || (n.Finite? && n.r != 0.0)
    case Str(s) => s != ""
    case Array(_) => true
    case Object(_) => true
  }

  predicate Nullish(v: Value) { v.Undefined? || v.Null? }

  /** `v?.key`: a present property of an object; undefined for everything else. */
  function Get(v: Value, key: string): (r: Value)
    ensures r != Undefined ==> v.Object? && key in v.fields && r == v.fields[key]
  {
    if v.Object? && key in v.fields then v.fields[key] else Undefined
  }

  /** `v?.[0]`: the first element of an array, property "0" of an object, the
      first character of a string; undefined for everything else. */
  function First(v: Value): (r: Value)
    ensures v.Array? ==> r == (if v.items == [] then Undefined else v.items[0])
  {
    match v
    case Array(items) => if items == [] then Undefined else items[0]
    case Object(_) => Get(v, "0")
    case Str(s) => if s == [] then Undefined else Str(s[..1])
    case _ => Undefined
  }

  /** The characters JavaScript treats as white space: the WhiteSpace and
      LineTerminator productions of ECMAScript, which are also the characters
      the regular-expression class `\s` matches. */
  predicate IsSpace(c: char) {
    c == ' ' || c == '\t' || c == '\n' || c == '\r' || c == '\U{B}' || c == '\U{C}'
    || c == '\U{A0}' || c == '\U{1680}' || ('\U{2000}' <= c <= '\U{200A}')
    || c == '\U{2028}' || c == '\U{2029}' || c == '\U{202F}' || c == '\U{205F}'
    || c == '\U{3000}' || c == '\U{FEFF}'
  }

  /** Index of the first non-space character at or after i. */
  function SkipSpaces(s: string, i: nat): (j: nat)
    requires i <= |s|
    ensures i <= j <= |s|
    ensures forall k :: i <= k < j ==> IsSpace(s[k])
    ensures j == |s| || !IsSpace(s[j])
    decreases |s| - i
  {
    if i < |s| && IsSpace(s[i]) then SkipSpaces(s, i + 1) else i
  }

  /** Index just after the last non-space character of s (0 if there is none). */
  function TrimmedEnd(s: string): (j: nat)
    ensures j <= |s|
    ensures forall k :: j <= k < |s| ==> IsSpace(s[k])
    ensures j == 0 || !IsSpace(s[j - 1])
  {
    if s == [] || !IsSpace(s[|s| - 1]) then |s|
    else TrimmedEnd(s[..|s| - 1])
  }

  predicate StartsWithAt(s: string, i: nat, t: string) {
    i + |t| <= |s| && s[i..i + |t|] == t
  }

  /** Where a literal starts once an optional sign is skipped, and whether it is negative. */
  function SignEnd(s: string, i: nat): (j: nat)
    requires i <= |s|
    ensures i <= j <= |s| && j <= i + 1
  {
    if i < |s| && (s[i] == '+' || s[i] == '-') then i + 1 else i
  }

  predicate SignIsMinus(s: string, i: nat) { i < |s| && s[i] == '-' }

  function Signed(negative: bool, x: real): real { if negative then -x else x }

  /** `parseFloat(s)`: leading white space is skipped, then the longest prefix
      that is a signed decimal literal or a signed `Infinity` is read; NaN
      when there is none. */
  function ParseFloat(s: string): (n: Num)
    ensures n.NaN? <==>
      var j := SignEnd(s, SkipSpaces(s, 0));
      !StartsWithAt(s, j, "Infinity") && ScanUnsignedDecimal(s, j).None?
    ensures n.Finite? ==>
      var j := SignEnd(s, SkipSpaces(s, 0));
      ScanUnsignedDecimal(s, j).Some? &&
      n.r == Signed(SignIsMinus(s, SkipSpaces(s, 0)), ScanUnsignedDecimal(s, j).value.value)
  {
    var i := SkipSpaces(s, 0);
    var j := SignEnd(s, i);
    var negative := SignIsMinus(s, i);
    if StartsWithAt(s, j, "Infinity") then (if negative then NegInf else PosInf)
    else match ScanUnsignedDecimal(s, j)
      case None => NaN
      case Some(sc) => Finite(Signed(negative, sc.value))
  }

  /** The decimal representation of a natural number parses back to it. */
  lemma ParseFloatOfDigits(n: nat)
    ensures ParseFloat(NatToDigits(n)) == Finite(n as real)
  {
    var s := NatToDigits(n);
    assert SkipSpaces(s, 0) == 0 by { assert IsDigit(s[0]); }
    assert !StartsWithAt(s, 0, "Infinity") by { assert IsDigit(s[0]); }
    ScanDigitString(s);
    NatToDigitsRoundTrip(n);
  }

  /** `parseFloat(v)`: the argument is first turned into a string. A number
      parses back to itself; undefined, null, booleans and plain objects
      give strings that start with a letter or '[' and so NaN. */
  function ParseFloatValue(v: Value): (n: Num)
    ensures !v.Number? && !v.Str? ==> n.NaN?
  {
    match v
    case Number(x) => x
    case Str(s) => ParseFloat(s)
    case _ => NaN
  }

  /** `parseInt(s, 10)`: leading white space, an optional sign, then the
      longest run of digits; None (NaN) when there is no digit. */
  function ParseInt(s: string): (r: Option<int>)
    ensures r.None? <==> DigitRunEnd(s, SignEnd(s, SkipSpaces(s, 0))) == SignEnd(s, SkipSpaces(s, 0))
  {
    var i := SkipSpaces(s, 0);
    var j := SignEnd(s, i);
    var k := DigitRunEnd(s, j);
    if k == j then None
    else
      var v: int := DigitsValue(s[j..k]);
      Some(if SignIsMinus(s, i) then -v else v)
  }

  /** A plain string of digits is read as the number it spells. */
  lemma ParseIntOfDigits(d: string)
    requires |d| > 0 && AllDigits(d)
    ensures ParseInt(d) == Some(DigitsValue(d) as int)
  {
    assert IsDigit(d[0]);
    assert SkipSpaces(d, 0) == 0;
    assert SignEnd(d, 0) == 0;
    DigitRunEndUnique(d, 0, |d|);
    assert d[0..|d|] == d;
  }

  /** The implicit conversion of a string to a number (as done by `<`): the
      whole string, white space trimmed at both ends, must be a signed decimal
      literal or a signed `Infinity`; an empty or all-space string is 0. */
  function StringToNumber(s: string): (n: Num)
    ensures SkipSpaces(s, 0) == |s| ==> n == Finite(0.0)
  {
    var e := TrimmedEnd(s);
    var t := s[..e];
    var i := SkipSpaces(t, 0);
    if i == |t| then Finite(0.0)
    else
      var j := SignEnd(t, i);
      var negative := SignIsMinus(t, i);
      if j + |"Infinity"| == |t| && StartsWithAt(t, j, "Infinity") then (if negative then NegInf else PosInf)
      else match ScanUnsignedDecimal(t, j)
        case Some(sc) => if sc.end == |t| then Finite(Signed(negative, sc.value)) else NaN
        case None => NaN
  }

  /** The implicit conversion of a primitive value to a number. */
  function ToNumber(v: Value): Num {
    match v
    case Undefined => NaN
    case Null => Finite(0.0)
    case Bool(b) => Finite(if b then 1.0 else 0.0)
    case Number(n) => n
    case Str(s) => StringToNumber(s)
    case _ => NaN
  }
}
