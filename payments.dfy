/** The checkout endpoint of the payments backend (payments/views.py): it
    checks that a booking request carries every required key, converts the
    total from Pakistani rupees to US cents at the fixed rate 1/291, asks the
    payment provider for a checkout session, and maps every failure to an HTTP
    response. Python numbers are modelled as exact values (`Num`), so the
    float rate and the float product are exact here; the truncation done by
    `int()` is written out. */
module Payments {
  import opened Wrappers
  import opened Numerals
  import opened JsValues

  /** The Python exceptions the endpoint can meet, with their messages. */
  datatype PyError = ValueError(msg: string) | TypeError(msg: string) | OverflowError(msg: string)

  /** The keys a checkout request must carry, in the order they are checked. */
  const RequiredFields: seq<string> := ["tripId", "checkIn", "checkOut", "guests", "name", "email", "totalPrice"]

  /** PKR per USD: `EXCHANGE_RATE_PKR_TO_USD = 1 / 291`. */
  const PkrPerUsd: real := 291.0

  const NonPositiveTotalMessage := "Total price must be a positive number"
  const InvalidTotalMessage := "Invalid totalPrice format"

  function MissingFieldMessage(field: string): string { "Missing required field: " + field }

  /* ---------- validate_request_data ---------- */

  /** The first of `fields`, in order, that is not a key of `data`. */
  function FirstMissing(data: map<string, Value>, fields: seq<string>): (r: Option<string>)
    ensures r.None? <==> forall k :: 0 <= k < |fields| ==> fields[k] in data
    ensures r.Some? ==> exists k :: 0 <= k < |fields| && fields[k] == r.value && r.value !in data &&
                                    forall j :: 0 <= j < k ==> fields[j] in data
  {
    if fields == [] then None
    else if fields[0] !in data then (assert fields[0] == fields[0]; Some(fields[0]))
    else
      var r := FirstMissing(data, fields[1..]);
      if r.Some? then
        assert exists k :: 0 <= k < |fields| && fields[k] == r.value && r.value !in data &&
                           forall j :: 0 <= j < k ==> fields[j] in data by {
          var k' :| 0 <= k' < |fields| - 1 && fields[1..][k'] == r.value && r.value !in data &&
                    forall j :: 0 <= j < k' ==> fields[1..][j] in data;
          assert fields[k' + 1] == r.value;
          assert forall j :: 0 <= j < k' + 1 ==> fields[j] in data by {
            forall j | 0 <= j < k' + 1 ensures fields[j] in data {
              if j > 0 { assert fields[j] == fields[1..][j - 1]; }
            }
          }
        }
        r
      else
        assert forall k :: 0 <= k < |fields| ==> fields[k] in data by {
          forall k | 0 <= k < |fields| ensures fields[k] in data {
            if k > 0 { assert fields[k] == fields[1..][k - 1]; }
          }
        }
        r
  }

  /** `validate_request_data(data, required_fields)`: goes through the fields
      in order and raises on the first one that is not a key of `data`. */
  method ValidateRequestData(data: map<string, Value>, fields: seq<string>) returns (err: Option<PyError>)
    ensures err.None? <==> FirstMissing(data, fields).None?
    ensures err.Some? ==> err.value == ValueError(MissingFieldMessage(FirstMissing(data, fields).value))
  {
    for i := 0 to |fields|
      invariant FirstMissing(data, fields) == FirstMissing(data, fields[i..])
    {
      if fields[i] !in data {
        return Some(ValueError(MissingFieldMessage(fields[i])));
      }
      assert fields[i..][1..] == fields[i + 1..];
    }
    return None;
  }

  /* ---------- float() ---------- */

  /** The characters Python's `str.strip()` and `float()` treat as white space. */
  predicate PyIsSpace(c: char) {
    c == ' ' || ('\t' <= c <= '\r') || ('\U{1C}' <= c <= '\U{1F}') || c == '\U{85}' || c == '\U{A0}'
    || c == '\U{1680}' || ('\U{2000}' <= c <= '\U{200A}') || c == '\U{2028}' || c == '\U{2029}'
    || c == '\U{202F}' || c == '\U{205F}' || c == '\U{3000}'
  }

  /** `s.strip()`. */
  function PyStrip(s: string): (t: string)
    ensures |t| <= |s|
    ensures t == [] || (!PyIsSpace(t[0]) && !PyIsSpace(t[|t| - 1]))
    decreases |s|
  {
    if s == [] then []
    else if PyIsSpace(s[0]) then PyStrip(s[1..])
    else if PyIsSpace(s[|s| - 1]) then PyStrip(s[..|s| - 1])
    else s
  }

  function LowerAscii(c: char): char {
    if 'A' <= c <= 'Z' then (c as int - 'A' as int + 'a' as int) as char else c
  }

  /** Case-insensitive equality with a lower-case ASCII word. */
  predicate SameWord(s: string, word: string) {
    |s| == |word| && forall k :: 0 <= k < |s| ==> LowerAscii(s[k]) == word[k]
  }

  const FloatSyntaxMessage := "could not convert string to float"

  /** `float(s)` for a string: white space stripped at both ends, then an
      optional sign and `inf`, `infinity` or `nan` in any case, or a decimal
      literal that takes up the whole rest of the string. */
  function PyParseFloat(s: string): (r: Result<Num, PyError>)
    ensures r.Err? ==> r.error == ValueError(FloatSyntaxMessage)
    ensures var t := PyStrip(s); var rest := t[SignEnd(t, 0)..];
      var sc := ScanUnsignedDecimal(t, SignEnd(t, 0));
      r.Err? <==> !(SameWord(rest, "inf") || SameWord(rest, "infinity") || SameWord(rest, "nan") ||
                    (sc.Some? && sc.value.end == |t|))
    ensures var t := PyStrip(s); var rest := t[SignEnd(t, 0)..];
      (SameWord(rest, "inf") || SameWord(rest, "infinity") ==> r == Ok(if SignIsMinus(t, 0) then NegInf else PosInf)) &&
      (SameWord(rest, "nan") ==> r == Ok(NaN))
    ensures r.Ok? && r.value.Finite? ==>
      var t := PyStrip(s);
      ScanUnsignedDecimal(t, SignEnd(t, 0)).Some? && ScanUnsignedDecimal(t, SignEnd(t, 0)).value.end == |t| &&
      r.value.r == Signed(SignIsMinus(t, 0), ScanUnsignedDecimal(t, SignEnd(t, 0)).value.value)
  {
    var t := PyStrip(s);
    var i := SignEnd(t, 0);
    var negative := SignIsMinus(t, 0);
    var rest := t[i..];
    if SameWord(rest, "inf") || SameWord(rest, "infinity") then Ok(if negative then NegInf else PosInf)
    else if SameWord(rest, "nan") then Ok(NaN)
    else match ScanUnsignedDecimal(t, i)
      case Some(sc) => if sc.end == |t| then Ok(Finite(Signed(negative, sc.value))) else Err(ValueError(FloatSyntaxMessage))
      case None => Err(ValueError(FloatSyntaxMessage))
  }

  /** The decimal representation of a natural number is read back by `float()`. */
  lemma PyParseFloatOfDigits(n: nat)
    ensures PyParseFloat(NatToDigits(n)) == Ok(Finite(n as real))
  {
    var s := NatToDigits(n);
    assert PyStrip(s) == s by { assert IsDigit(s[0]) && IsDigit(s[|s| - 1]); }
    assert SignEnd(s, 0) == 0 && s[0..] == s by { assert IsDigit(s[0]); }
    assert !SameWord(s, "inf") && !SameWord(s, "infinity") && !SameWord(s, "nan") by { assert IsDigit(s[0]); }
    ScanDigitString(s);
    NatToDigitsRoundTrip(n);
  }

  /** The name Python gives the type of a JSON value in a TypeError. */
  function PyTypeName(v: Value): string {
    match v
    case Null => "NoneType"
    case Array(_) => "list"
    case Object(_) => "dict"
    case _ => "object"
  }

  /** `float(v)` for a value of a parsed JSON body: numbers are kept, booleans
      are 1.0 and 0.0, strings are parsed, and anything else is a TypeError. */
  function PyFloat(v: Value): (r: Result<Num, PyError>)
    ensures v.Number? ==> r == Ok(v.n)
    ensures v.Null? || v.Array? || v.Object? ==> r.Err? && r.error.TypeError?
    ensures r.Err? && r.error.ValueError? ==> v.Str?
  {
    match v
    case Number(n) => Ok(n)
    case Bool(b) => Ok(Finite(if b then 1.0 else 0.0))
    case Str(s) => PyParseFloat(s)
    case _ => Err(TypeError("float() argument must be a string or a real number, not '" + PyTypeName(v) + "'"))
  }

  /* ---------- convert_pkr_to_usd_cents ---------- */

  /** `convert_pkr_to_usd_cents(total)`. A total that is not greater than 0
      raises the converter's ValueError. NaN passes that guard (the
      comparison is false) and `int(nan)` raises a ValueError of its own;
      +inf passes it too and `int(inf)` raises OverflowError. A positive
      finite total gives the cents truncated toward zero. */
  function ConvertPkrToUsdCents(total: Num): (r: Result<int, PyError>)
    ensures r.Ok? <==> total.Finite? && total.r > 0.0
    ensures r.Ok? ==> r.value >= 0
    ensures AtMostZero(total) ==> r == Err(ValueError(NonPositiveTotalMessage))
    ensures total.NaN? ==> r.Err? && r.error.ValueError?
    ensures total.PosInf? ==> r.Err? && r.error.OverflowError?
  {
    match total
    case NaN => Err(ValueError("cannot convert float NaN to integer"))
    case PosInf => Err(OverflowError("cannot convert float infinity to integer"))
    case NegInf => Err(ValueError(NonPositiveTotalMessage))
    case Finite(x) =>
      if x <= 0.0 then Err(ValueError(NonPositiveTotalMessage))
      else Ok((x / PkrPerUsd * 100.0).Floor)
  }

  /** The cents are the whole number of cents in total/291 dollars: the
      amount charged never exceeds the converted total and falls short of it
      by less than one cent. */
  lemma {:induction false} ConvertedCents(x: real)
    requires x > 0.0
    ensures ConvertPkrToUsdCents(Finite(x)).Ok?
    ensures var c := ConvertPkrToUsdCents(Finite(x)).value;
      c as real * PkrPerUsd <= 100.0 * x < (c + 1) as real * PkrPerUsd
  {
    var c := (x / PkrPerUsd * 100.0).Floor;
    assert c as real <= x / PkrPerUsd * 100.0 < c as real + 1.0;
    assert x / PkrPerUsd * 100.0 * PkrPerUsd == 100.0 * x;
  }

  /** A larger total never gives fewer cents. */
  lemma ConvertMonotone(x: real, y: real)
    requires 0.0 < x <= y
    ensures ConvertPkrToUsdCents(Finite(x)).value <= ConvertPkrToUsdCents(Finite(y)).value
  {
    ConvertedCents(x);
    ConvertedCents(y);
  }

  /* ---------- CreateCheckoutSessionView.post ---------- */

  /** What is sent to the payment provider: the amount in cents and the
      values copied from the request into the session. The product name and
      description texts are not part of this model. */
  datatype SessionParams = SessionParams(
    unitAmount: int, customerEmail: Value,
    tripId: Value, checkIn: Value, checkOut: Value, guests: Value,
    name: Value, email: Value, phone: Value)

  /** What the provider call does: a session id, a provider error, or any
      other exception. */
  datatype ProviderOutcome = Created(sessionId: string) | ProviderFailure(message: string) | OtherFailure(message: string)

  datatype Body = SessionId(id: string) | ErrorMessage(error: string)
  datatype Response = Response(status: int, body: Body)

  /** `request.data.get(key, default)`. */
  function GetOr(data: map<string, Value>, key: string, default: Value): Value {
    if key in data then data[key] else default
  }

  /** The session parameters built from a request that passed validation. */
  function SessionFor(data: map<string, Value>, cents: int): (p: SessionParams)
    requires forall k :: 0 <= k < |RequiredFields| ==> RequiredFields[k] in data
  {
    assert RequiredFields[0] == "tripId" && RequiredFields[1] == "checkIn" && RequiredFields[2] == "checkOut";
    assert RequiredFields[3] == "guests" && RequiredFields[4] == "name" && RequiredFields[5] == "email";
    SessionParams(cents, GetOr(data, "email", Null),
                  data["tripId"], data["checkIn"], data["checkOut"], data["guests"],
                  data["name"], data["email"], GetOr(data, "phone", Str("")))
  }

  /** The total in cents, or the exception that stops the request. */
  function TotalCents(v: Value): Result<int, PyError> {
    match PyFloat(v)
    case Err(e) => Err(e)
    case Ok(x) => ConvertPkrToUsdCents(x)
  }

  function ServerError(message: string): Response { Response(500, ErrorMessage("Server error: " + message)) }

  /** `post(request)` for a JSON object body. `provider` stands for the call
      that creates the checkout session. */
  function Post(data: map<string, Value>, provider: SessionParams -> ProviderOutcome): (resp: Response)
    ensures resp.status == 200 || resp.status == 400 || resp.status == 500
    ensures resp.status == 200 <==> resp.body.SessionId?
  {
    match FirstMissing(data, RequiredFields)
    case Some(field) => Response(400, ErrorMessage(MissingFieldMessage(field)))
    case None =>
      assert "totalPrice" in data by { assert RequiredFields[6] == "totalPrice"; }
      match TotalCents(data["totalPrice"])
      case Err(ValueError(_)) => Response(400, ErrorMessage(InvalidTotalMessage))
      case Err(TypeError(m)) => ServerError(m)
      case Err(OverflowError(m)) => ServerError(m)
      case Ok(cents) =>
        match provider(SessionFor(data, cents))
        case Created(id) => Response(200, SessionId(id))
        case ProviderFailure(m) => Response(400, ErrorMessage("Stripe error: " + m))
        case OtherFailure(m) => ServerError(m)
  }

  /** A missing required key is answered with 400 and the validation message
      naming the first missing key, before the total is looked at. */
  lemma PostMissingField(data: map<string, Value>, provider: SessionParams -> ProviderOutcome, k: nat)
    requires k < |RequiredFields| && RequiredFields[k] !in data
    requires forall j :: 0 <= j < k ==> RequiredFields[j] in data
    ensures Post(data, provider) == Response(400, ErrorMessage(MissingFieldMessage(RequiredFields[k])))
  {
    FirstMissingIsFirst(data, RequiredFields, k);
  }

  /** The first missing field is determined by its position. */
  lemma {:induction false} FirstMissingIsFirst(data: map<string, Value>, fields: seq<string>, k: nat)
    requires k < |fields| && fields[k] !in data
    requires forall j :: 0 <= j < k ==> fields[j] in data
    ensures FirstMissing(data, fields) == Some(fields[k])
    decreases k
  {
    if k > 0 {
      assert fields[0] in data;
      FirstMissingIsFirst(data, fields[1..], k - 1);
    }
  }

  /** With every key present, a total that `float()` rejects, a total not
      greater than 0, and NaN are all answered with 400 and the fixed
      message, not with the converter's own message. */
  lemma PostInvalidTotal(data: map<string, Value>, provider: SessionParams -> ProviderOutcome)
    requires forall k :: 0 <= k < |RequiredFields| ==> RequiredFields[k] in data
    requires "totalPrice" in data
    requires var f := PyFloat(data["totalPrice"]);
      (f.Err? && f.error.ValueError?) || (f.Ok? && (AtMostZero(f.value) || f.value.NaN?))
    ensures Post(data, provider) == Response(400, ErrorMessage(InvalidTotalMessage))
  {
  }

  /** A request is answered with 200 exactly when every key is present, the
      total reads as a positive finite number and the provider creates a
      session; the session it was asked for charges the converted total. */
  lemma PostSucceeds(data: map<string, Value>, provider: SessionParams -> ProviderOutcome)
    ensures Post(data, provider).status == 200 <==>
      (forall k :: 0 <= k < |RequiredFields| ==> RequiredFields[k] in data) &&
      "totalPrice" in data &&
      PyFloat(data["totalPrice"]).Ok? && PyFloat(data["totalPrice"]).value.Finite? &&
      PyFloat(data["totalPrice"]).value.r > 0.0 &&
      provider(SessionFor(data, ConvertPkrToUsdCents(PyFloat(data["totalPrice"]).value).value)).Created?
  {
    if FirstMissing(data, RequiredFields).None? {
      assert "totalPrice" in data by { assert RequiredFields[6] == "totalPrice"; }
    }
  }

  /** `phone` is optional: a request without it is validated like any other
      and the session carries an empty phone. */
  lemma PhoneIsOptional(data: map<string, Value>, cents: int)
    requires forall k :: 0 <= k < |RequiredFields| ==> RequiredFields[k] in data
    requires "phone" !in data
    ensures FirstMissing(data, RequiredFields).None?
    ensures SessionFor(data, cents).phone == Str("")
    ensures SessionFor(data, cents).unitAmount == cents
  {
  }

  /** The worked example: 127500 PKR is 43814 US cents. */
  lemma ExampleConversion()
    ensures ConvertPkrToUsdCents(Finite(127500.0)) == Ok(43814)
  {
    ConvertedCents(127500.0);
  }
}
