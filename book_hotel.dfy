/** The hotel booking page (src/book-hotel/index.jsx): the nightly price read
    from the hotel's free-text price, the nights and total computed from the
    two dates, the checks that stand between the form and the checkout
    request, and the display of amounts with thousands separators. */
module BookHotel {
  import opened Wrappers
  import opened Numerals
  import opened JsValues
  import opened Dates

  /* ---------- The price range pattern /([\d,]+)\s*-\s*([\d,]+)/ ---------- */

  predicate IsDigitOrComma(c: char) { IsDigit(c) || c == ',' }

  /** End of the longest run of digits and commas that starts at index i. */
  function DigitCommaRunEnd(s: string, i: nat): (j: nat)
    requires i <= |s|
    ensures i <= j <= |s|
    ensures forall k :: i <= k < j ==> IsDigitOrComma(s[k])
    ensures j == |s| || !IsDigitOrComma(s[j])
    decreases |s| - i
  {
    if i < |s| && IsDigitOrComma(s[i]) then DigitCommaRunEnd(s, i + 1) else i
  }

  lemma {:induction false} DigitCommaRunEndUnique(s: string, i: nat, j: nat)
    requires i <= j <= |s|
    requires forall k :: i <= k < j ==> IsDigitOrComma(s[k])
    requires j == |s| || !IsDigitOrComma(s[j])
    ensures DigitCommaRunEnd(s, i) == j
    decreases j - i
  {
    if i < j { DigitCommaRunEndUnique(s, i + 1, j); }
  }

  lemma {:induction false} SkipSpacesUnique(s: string, i: nat, j: nat)
    requires i <= j <= |s|
    requires forall k :: i <= k < j ==> IsSpace(s[k])
    requires j == |s| || !IsSpace(s[j])
    ensures SkipSpaces(s, i) == j
    decreases j - i
  {
    if i < j { SkipSpacesUnique(s, i + 1, j); }
  }

  /** The pattern matches s at index i with the first group s[i..a], the dash
      at index b and the second group s[c..e]. */
  predicate RangeShape(s: string, i: nat, a: nat, b: nat, c: nat, e: nat) {
    i < a <= b < c < e <= |s| &&
    (forall k :: i <= k < a ==> IsDigitOrComma(s[k])) &&
    (forall k :: a <= k < b ==> IsSpace(s[k])) &&
    s[b] == '-' &&
    (forall k :: b < k < c ==> IsSpace(s[k])) &&
    (forall k :: c <= k < e ==> IsDigitOrComma(s[k]))
  }

  /** The two captured groups of a match. */
  datatype Bounds = Bounds(low: string, high: string)

  /** The match the regular expression engine finds when it starts at index
      i: both groups and both white-space runs are greedy, and since none of
      them can give characters back to what follows, greedy is the only way
      to match. */
  function MatchRangeAt(s: string, i: nat): (r: Option<Bounds>)
    requires i <= |s|
  {
    var a := DigitCommaRunEnd(s, i);
    var b := SkipSpaces(s, a);
    if a == i || b == |s| || s[b] != '-' then None
    else
      var c := SkipSpaces(s, b + 1);
      var e := DigitCommaRunEnd(s, c);
      if e == c then None else Some(Bounds(s[i..a], s[c..e]))
  }

  /** What MatchRangeAt finds is a match of the pattern, with a greedy second group. */
  lemma MatchRangeAtSound(s: string, i: nat)
    requires i <= |s| && MatchRangeAt(s, i).Some?
    ensures exists a: nat, b: nat, c: nat, e: nat ::
      (RangeShape(s, i, a, b, c, e) &&
       MatchRangeAt(s, i).value == Bounds(s[i..a], s[c..e]) && (e == |s| || !IsDigitOrComma(s[e])))
  {
    var a := DigitCommaRunEnd(s, i);
    var b := SkipSpaces(s, a);
    var c := SkipSpaces(s, b + 1);
    var e := DigitCommaRunEnd(s, c);
    assert RangeShape(s, i, a, b, c, e);
  }

  /** Every way the pattern can match at index i is found by MatchRangeAt, and
      the groups it captures are the first group of that match and the longest
      second group. */
  lemma MatchRangeAtComplete(s: string, i: nat, a: nat, b: nat, c: nat, e: nat)
    requires RangeShape(s, i, a, b, c, e)
    ensures MatchRangeAt(s, i) == Some(Bounds(s[i..a], s[c..DigitCommaRunEnd(s, c)]))
  {
    DigitCommaRunEndUnique(s, i, a);
    SkipSpacesUnique(s, a, b);
    SkipSpacesUnique(s, b + 1, c);
  }

  /** A match together with the index where it starts. */
  datatype RangeMatch = RangeMatch(start: nat, bounds: Bounds)

  /** `s.match(/([\d,]+)\s*-\s*([\d,]+)/)`: the leftmost match at or after index i. */
  function FindRange(s: string, i: nat): (r: Option<RangeMatch>)
    requires i <= |s|
    ensures r.Some? ==> i <= r.value.start <= |s| && MatchRangeAt(s, r.value.start) == Some(r.value.bounds)
    ensures r.Some? ==> forall k :: i <= k < r.value.start ==> MatchRangeAt(s, k).None?
    ensures r.None? ==> forall k :: i <= k <= |s| ==> MatchRangeAt(s, k).None?
    decreases |s| - i
  {
    match MatchRangeAt(s, i)
    case Some(m) => Some(RangeMatch(i, m))
    case None => if i == |s| then None else FindRange(s, i + 1)
  }

  /** `text.replace(/,/g, "")`. */
  function RemoveCommas(s: string): (r: string)
    ensures forall k :: 0 <= k < |r| ==> r[k] != ','
    ensures |r| <= |s|
  {
    if s == [] then [] else (if s[0] == ',' then [] else [s[0]]) + RemoveCommas(s[1..])
  }

  lemma {:induction false} RemoveCommasAppend(a: string, b: string)
    ensures RemoveCommas(a + b) == RemoveCommas(a) + RemoveCommas(b)
    decreases |a|
  {
    if a != [] {
      assert (a + b)[1..] == a[1..] + b;
      RemoveCommasAppend(a[1..], b);
    } else {
      assert a + b == b;
    }
  }

  /** Removing the commas from a run of digits and commas leaves digits only. */
  lemma {:induction false} RemoveCommasLeavesDigits(s: string)
    requires forall k :: 0 <= k < |s| ==> IsDigitOrComma(s[k])
    ensures AllDigits(RemoveCommas(s))
    decreases |s|
  {
    if s != [] { RemoveCommasLeavesDigits(s[1..]); }
  }

  /** `parseInt(group.replace(/,/g, ""), 10)` for a captured group; None is NaN. */
  function BoundValue(group: string): Option<int> {
    ParseInt(RemoveCommas(group))
  }

  /** A group made of digits and commas is read as the number its digits
      spell; a group of commas alone is NaN. */
  lemma BoundValueOfGroup(group: string)
    requires forall k :: 0 <= k < |group| ==> IsDigitOrComma(group[k])
    ensures AllDigits(RemoveCommas(group))
    ensures BoundValue(group) == if RemoveCommas(group) == [] then None
                                 else Some(DigitsValue(RemoveCommas(group)) as int)
  {
    RemoveCommasLeavesDigits(group);
    var d := RemoveCommas(group);
    if d != [] {
      ParseIntOfDigits(d);
    }
  }

  /* ---------- The price per night ---------- */

  /** The hotel passed to the page in the navigation state. `price` is the
      model-generated free text (None when absent); `pricePerNight` is the
      optional numeric field read by the fallback. */
  datatype Hotel = Hotel(hotelName: Value, price: Option<string>, pricePerNight: Value)

  const BookingFee: real := 5000.0
  const MissingPriceError := "Hotel price information is missing."
  const InvalidPriceFormatError := "Invalid hotel price format."
  const InvalidFallbackError := "Invalid fallback price."

  /** What the price effect sets: the price per night, and the error message
      when it sets one (None: the error is left as it was). */
  datatype PriceUpdate = PriceUpdate(price: real, error: Option<string>)

  /** The price effect (src/book-hotel/index.jsx:61-89). */
  function NightlyPrice(hotel: Option<Hotel>): (u: PriceUpdate)
    ensures u.price >= 0.0
    ensures u.price > 0.0 ==> u.error.None?
    ensures hotel.None? || hotel.value.price.None? || hotel.value.price.value == "" ==>
              u == PriceUpdate(0.0, Some(MissingPriceError))
    ensures u.error == Some(MissingPriceError) ==>
              hotel.None? || hotel.value.price.None? || hotel.value.price.value == ""
  {
    if hotel.None? || hotel.value.price.None? || hotel.value.price.value == "" then
      PriceUpdate(0.0, Some(MissingPriceError))
    else
      var text := hotel.value.price.value;
      match FindRange(text, 0)
      case Some(m) =>
        var p1, p2 := BoundValue(m.bounds.low), BoundValue(m.bounds.high);
        if p1.Some? && p2.Some? && p1.value > 0 && p2.value > 0 then
          PriceUpdate((p1.value + p2.value) as real / 2.0 + BookingFee, None)
        else PriceUpdate(0.0, Some(InvalidPriceFormatError))
      case None =>
        var fallback := ParseFloatValue(if Nullish(hotel.value.pricePerNight) then Str(text)
                                        else hotel.value.pricePerNight);
        PriceUpdate(if fallback.Finite? && fallback.r > 0.0 then fallback.r else 0.0,
                    if AtMostZero(fallback) then Some(InvalidFallbackError) else None)
  }

  /** The leftmost match of the range pattern, when it starts at index i and
      ends at a maximal second group, is found with exactly those groups. */
  lemma LeftmostRange(s: string, i: nat, a: nat, b: nat, c: nat, e: nat)
    requires RangeShape(s, i, a, b, c, e) && (e == |s| || !IsDigitOrComma(s[e]))
    requires forall k :: 0 <= k < i ==> MatchRangeAt(s, k).None?
    ensures FindRange(s, 0) == Some(RangeMatch(i, Bounds(s[i..a], s[c..e])))
  {
    MatchRangeAtComplete(s, i, a, b, c, e);
    DigitCommaRunEndUnique(s, c, e);
    var m := FindRange(s, 0);
    assert m.Some?;
    assert m.value.start == i;
  }

  /** The two groups of a match are read as the numbers their digits spell,
      or NaN when a group is commas alone. */
  lemma RangeGroupValues(s: string, i: nat, a: nat, b: nat, c: nat, e: nat)
    requires RangeShape(s, i, a, b, c, e)
    ensures AllDigits(RemoveCommas(s[i..a])) && AllDigits(RemoveCommas(s[c..e]))
    ensures BoundValue(s[i..a]) == if RemoveCommas(s[i..a]) == [] then None
                                   else Some(DigitsValue(RemoveCommas(s[i..a])) as int)
    ensures BoundValue(s[c..e]) == if RemoveCommas(s[c..e]) == [] then None
                                   else Some(DigitsValue(RemoveCommas(s[c..e])) as int)
  {
    BoundValueOfGroup(s[i..a]);
    BoundValueOfGroup(s[c..e]);
  }

  /** The price effect when the pattern matches: both bounds positive give
      their mean plus the fee, anything else the format error. */
  lemma FoundRangePrice(h: Hotel, m: RangeMatch)
    requires h.price.Some? && h.price.value != "" && FindRange(h.price.value, 0) == Some(m)
    ensures var p1, p2 := BoundValue(m.bounds.low), BoundValue(m.bounds.high);
      NightlyPrice(Some(h)) ==
        if p1.Some? && p2.Some? && p1.value > 0 && p2.value > 0
        then PriceUpdate((p1.value + p2.value) as real / 2.0 + BookingFee, None)
        else PriceUpdate(0.0, Some(InvalidPriceFormatError))
  {
  }

  /** A price text whose leftmost range (at index i, after any text in which
      the pattern does not match) has two positive bounds sets the mean of
      the bounds plus the fee, with the commas ignored. */
  lemma RangePrice(h: Hotel, i: nat, a: nat, b: nat, c: nat, e: nat)
    requires h.price.Some? && RangeShape(h.price.value, i, a, b, c, e)
    requires var s := h.price.value; e == |s| || !IsDigitOrComma(s[e])
    requires var s := h.price.value; forall k :: 0 <= k < i ==> MatchRangeAt(s, k).None?
    requires var s := h.price.value;
      AllDigits(RemoveCommas(s[i..a])) && AllDigits(RemoveCommas(s[c..e])) &&
      DigitsValue(RemoveCommas(s[i..a])) > 0 && DigitsValue(RemoveCommas(s[c..e])) > 0
    ensures var s := h.price.value;
      NightlyPrice(Some(h)) == PriceUpdate(
        (DigitsValue(RemoveCommas(s[i..a])) + DigitsValue(RemoveCommas(s[c..e]))) as real / 2.0 + BookingFee,
        None)
  {
    var s := h.price.value;
    PositiveRangeFound(s, i, a, b, c, e);
    PositiveBoundsPrice(h, RangeMatch(i, Bounds(s[i..a], s[c..e])),
                        DigitsValue(RemoveCommas(s[i..a])), DigitsValue(RemoveCommas(s[c..e])));
  }

  lemma PositiveRangeFound(s: string, i: nat, a: nat, b: nat, c: nat, e: nat)
    requires RangeShape(s, i, a, b, c, e) && (e == |s| || !IsDigitOrComma(s[e]))
    requires forall k :: 0 <= k < i ==> MatchRangeAt(s, k).None?
    requires AllDigits(RemoveCommas(s[i..a])) && AllDigits(RemoveCommas(s[c..e])) &&
             DigitsValue(RemoveCommas(s[i..a])) > 0 && DigitsValue(RemoveCommas(s[c..e])) > 0
    ensures FindRange(s, 0) == Some(RangeMatch(i, Bounds(s[i..a], s[c..e])))
    ensures BoundValue(s[i..a]) == Some(DigitsValue(RemoveCommas(s[i..a])) as int)
    ensures BoundValue(s[c..e]) == Some(DigitsValue(RemoveCommas(s[c..e])) as int)
  {
    LeftmostRange(s, i, a, b, c, e);
    RangeGroupValues(s, i, a, b, c, e);
  }

  lemma PositiveBoundsPrice(h: Hotel, m: RangeMatch, x: nat, y: nat)
    requires h.price.Some? && h.price.value != "" && FindRange(h.price.value, 0) == Some(m)
    requires BoundValue(m.bounds.low) == Some(x) && BoundValue(m.bounds.high) == Some(y) && x > 0 && y > 0
    ensures NightlyPrice(Some(h)) == PriceUpdate((x + y) as real / 2.0 + BookingFee, None)
  {
    FoundRangePrice(h, m);
  }

  /** A leftmost range whose bounds are not both positive sets 0 and the
      format error. */
  lemma RangeWithoutPositiveBounds(h: Hotel, i: nat, a: nat, b: nat, c: nat, e: nat)
    requires h.price.Some? && RangeShape(h.price.value, i, a, b, c, e)
    requires var s := h.price.value; e == |s| || !IsDigitOrComma(s[e])
    requires var s := h.price.value; forall k :: 0 <= k < i ==> MatchRangeAt(s, k).None?
    requires var s := h.price.value;
      RemoveCommas(s[i..a]) == [] || RemoveCommas(s[c..e]) == [] ||
      (AllDigits(RemoveCommas(s[i..a])) && DigitsValue(RemoveCommas(s[i..a])) == 0) ||
      (AllDigits(RemoveCommas(s[c..e])) && DigitsValue(RemoveCommas(s[c..e])) == 0)
    ensures NightlyPrice(Some(h)) == PriceUpdate(0.0, Some(InvalidPriceFormatError))
  {
    var s := h.price.value;
    LeftmostRange(s, i, a, b, c, e);
    RangeGroupValues(s, i, a, b, c, e);
    FoundRangePrice(h, RangeMatch(i, Bounds(s[i..a], s[c..e])));
  }

  /** With no range in the text, the fallback number is kept when it is
      positive and finite; otherwise the price is 0, and the fallback error is
      set only when the number is not NaN or +Infinity. */
  lemma FallbackPrice(h: Hotel)
    requires h.price.Some? && h.price.value != "" && FindRange(h.price.value, 0).None?
    ensures var fallback := ParseFloatValue(if Nullish(h.pricePerNight) then Str(h.price.value) else h.pricePerNight);
      NightlyPrice(Some(h)) ==
        if fallback.Finite? && fallback.r > 0.0 then PriceUpdate(fallback.r, None)
        else if fallback.NaN? || fallback.PosInf? then PriceUpdate(0.0, None)
        else PriceUpdate(0.0, Some(InvalidFallbackError))
  {
  }

  /** The worked example: "25,000 - 50,000" is 42500 a night. */
  lemma ExamplePriceRange()
    ensures NightlyPrice(Some(Hotel(Str("Grand"), Some("25,000 - 50,000"), Undefined))) == PriceUpdate(42500.0, None)
  {
    var s := "25,000 - 50,000";
    ExampleRangeShape();
    ExampleBound25000();
    ExampleBound50000();
    RangePrice(Hotel(Str("Grand"), Some(s), Undefined), 0, 6, 7, 9, 15);
  }

  lemma ExampleRangeShape()
    ensures RangeShape("25,000 - 50,000", 0, 6, 7, 9, 15)
    ensures "25,000 - 50,000"[0..6] == "25,000" && "25,000 - 50,000"[9..15] == "50,000"
  {
    var s := "25,000 - 50,000";
    assert RangeShape(s, 0, 6, 7, 9, 15);
    assert s[0..6] == "25,000" && s[9..15] == "50,000";
  }

  lemma ExampleBound25000()
    ensures RemoveCommas("25,000") == "25000" && AllDigits("25000") && DigitsValue("25000") == 25000
  {
    assert RemoveCommas("25,000") == "25000" by {
      assert "25,000"[1..] == "5,000";
      assert "5,000"[1..] == ",000";
      assert ",000"[1..] == "000";
      assert "000"[1..] == "00";
      assert "00"[1..] == "0";
      assert "0"[1..] == "";
    }
    assert "25000"[..4] == "2500";
    assert "2500"[..3] == "250";
    assert "250"[..2] == "25";
    assert "25"[..1] == "2";
    assert "2"[..0] == "";
  }

  lemma ExampleBound50000()
    ensures RemoveCommas("50,000") == "50000" && AllDigits("50000") && DigitsValue("50000") == 50000
  {
    assert RemoveCommas("50,000") == "50000" by {
      assert "50,000"[1..] == "0,000";
      assert "0,000"[1..] == ",000";
      assert ",000"[1..] == "000";
      assert "000"[1..] == "00";
      assert "00"[1..] == "0";
      assert "0"[1..] == "";
    }
    assert "50000"[..4] == "5000";
    assert "5000"[..3] == "500";
    assert "500"[..2] == "50";
    assert "50"[..1] == "5";
    assert "5"[..0] == "";
  }

  /* ---------- Nights and total ---------- */

  /** `(new Date(checkOut) - new Date(checkIn)) / 86400000` when both dates are
      valid; None when either is not (the difference is then NaN). */
  function StayNights(checkIn: string, checkOut: string): (n: Option<int>)
    ensures n.Some? <==> ParseIsoDate(checkIn).Some? && ParseIsoDate(checkOut).Some?
    ensures n.Some? ==> n.value == ParseIsoDate(checkOut).value - ParseIsoDate(checkIn).value
  {
    match (ParseIsoDate(checkIn), ParseIsoDate(checkOut))
    case (Some(i), Some(o)) => Some(o - i)
    case _ => None
  }

  /** A stay has a positive number of nights exactly when check-out is a
      later calendar date than check-in. */
  lemma StayNightsPositive(checkIn: string, checkOut: string)
    requires ParseIsoDate(checkIn).Some? && ParseIsoDate(checkOut).Some?
    ensures StayNights(checkIn, checkOut).value > 0 <==> Before(IsoFields(checkIn), IsoFields(checkOut))
  {
    DayNumberOrder(IsoFields(checkIn), IsoFields(checkOut));
  }

  /** Check-out on the calendar day after check-in is one night, also when
      the stay crosses the end of a month or of a year. */
  lemma StayOfOneNight(checkIn: string, checkOut: string)
    requires ParseIsoDate(checkIn).Some? && ParseIsoDate(checkOut).Some?
    requires IsoFields(checkOut) == NextDate(IsoFields(checkIn))
    ensures StayNights(checkIn, checkOut) == Some(1)
  {
    NextDay(IsoFields(checkIn));
  }

  /** The worked example: 2025-06-01 to 2025-06-04 is three nights. */
  lemma ExampleStay()
    ensures StayNights("2025-06-01", "2025-06-04") == Some(3)
  {
    var i, o := "2025-06-01", "2025-06-04";
    assert IsoShape(i) && IsoShape(o);
    assert DigitsValue("2025") == 2025 by {
      assert "2025"[..3] == "202" && "202"[..2] == "20" && "20"[..1] == "2" && "2"[..0] == "";
    }
    assert DigitsValue("06") == 6 && DigitsValue("01") == 1 && DigitsValue("04") == 4 by {
      assert "06"[..1] == "0" && "01"[..1] == "0" && "04"[..1] == "0" && "0"[..0] == "";
    }
    assert IsoFields(i) == Date(2025, 6, 1) by {
      assert i[..4] == "2025" && i[5..7] == "06" && i[8..] == "01";
    }
    assert IsoFields(o) == Date(2025, 6, 4) by {
      assert o[..4] == "2025" && o[5..7] == "06" && o[8..] == "04";
    }
    SameMonth(Date(2025, 6, 1), Date(2025, 6, 4));
  }

  lemma NewYearsEveFields()
    ensures IsoShape("2024-12-31") && IsoFields("2024-12-31") == Date(2024, 12, 31)
  {
    var i := "2024-12-31";
    assert DigitsValue("2024") == 2024 by {
      assert "2024"[..3] == "202" && "202"[..2] == "20" && "20"[..1] == "2" && "2"[..0] == "";
    }
    assert DigitsValue("12") == 12 && DigitsValue("31") == 31 by {
      assert "12"[..1] == "1" && "31"[..1] == "3" && "1"[..0] == "" && "3"[..0] == "";
    }
    assert i[..4] == "2024" && i[5..7] == "12" && i[8..] == "31";
  }

  lemma NewYearsDayFields()
    ensures IsoShape("2025-01-01") && IsoFields("2025-01-01") == Date(2025, 1, 1)
  {
    var o := "2025-01-01";
    assert DigitsValue("2025") == 2025 by {
      assert "2025"[..3] == "202" && "202"[..2] == "20" && "20"[..1] == "2" && "2"[..0] == "";
    }
    assert DigitsValue("01") == 1 by { assert "01"[..1] == "0" && "0"[..0] == ""; }
    assert o[..4] == "2025" && o[5..7] == "01" && o[8..] == "01";
  }

  /** New Year's Eve to New Year's Day is one night. */
  lemma ExampleYearEndStay()
    ensures StayNights("2024-12-31", "2025-01-01") == Some(1)
  {
    NewYearsEveFields();
    NewYearsDayFields();
    StayOfOneNight("2024-12-31", "2025-01-01");
  }

  /** `totalNights * pricePerNight`, written as the price of one night
      added once per night; `PriceOfNightsIsProduct` shows it is the product. */
  function PriceOfNights(nights: nat, pricePerNight: real): real
  {
    if nights == 0 then 0.0 else PriceOfNights(nights - 1, pricePerNight) + pricePerNight
  }

  lemma {:induction false} PriceOfNightsIsProduct(nights: nat, pricePerNight: real)
    ensures PriceOfNights(nights, pricePerNight) == nights as real * pricePerNight
  {
    if nights > 0 {
      PriceOfNightsIsProduct(nights - 1, pricePerNight);
    }
  }

  /** Nights at a price that is not positive never cost a positive amount. */
  lemma {:induction false} PositivePriceOfNights(nights: nat, pricePerNight: real)
    requires PriceOfNights(nights, pricePerNight) > 0.0
    ensures pricePerNight > 0.0 && nights > 0
  {
    if nights > 0 && pricePerNight <= 0.0 && PriceOfNights(nights - 1, pricePerNight) > 0.0 {
      PositivePriceOfNights(nights - 1, pricePerNight);
    }
  }

  /** What the nights effect sets. */
  datatype Totals = Totals(nights: int, total: real, error: string)

  /** What the nights effect sets for a stay of n nights (None: a date is
      not a real date): the nights and their total, or zero and the date error. */
  function StayTotals(n: Option<int>, pricePerNight: real): (t: Totals)
    ensures t.nights >= 0 && t.total == PriceOfNights(t.nights, pricePerNight)
  {
    if n.Some? && n.value > 0 then Totals(n.value, PriceOfNights(n.value, pricePerNight), "")
    else Totals(0, 0.0, InvalidDatesError)
  }

  /** The nights effect: None when a date is empty (it returns early),
      otherwise the nights, the total and the error message it sets. */
  function NightsOutcome(checkIn: string, checkOut: string, pricePerNight: real): (r: Option<Totals>)
    ensures r.Some? ==> r.value.nights >= 0 && r.value.total == PriceOfNights(r.value.nights, pricePerNight)
  {
    if checkIn == "" || checkOut == "" then None
    else Some(StayTotals(StayNights(checkIn, checkOut), pricePerNight))
  }

  /** The nights effect keeps the total equal to nights times the price. With
      both dates given it sets a positive stay, its total and no error exactly
      when check-out is a later calendar date than check-in, and otherwise
      zero nights, a zero total and the date error (also for a date that is
      not a real calendar date). */
  lemma NightsOutcomeMeaning(checkIn: string, checkOut: string, pricePerNight: real)
    ensures NightsOutcome(checkIn, checkOut, pricePerNight).None? <==> checkIn == "" || checkOut == ""
    ensures var o := NightsOutcome(checkIn, checkOut, pricePerNight);
      o.Some? ==> (o.value.nights > 0 <==> o.value.error == "")
    ensures var o := NightsOutcome(checkIn, checkOut, pricePerNight);
      o.Some? && o.value.nights == 0 ==> o.value.total == 0.0 && o.value.error == InvalidDatesError
    ensures var o := NightsOutcome(checkIn, checkOut, pricePerNight);
      o.Some? ==> (o.value.nights > 0 <==>
        ParseIsoDate(checkIn).Some? && ParseIsoDate(checkOut).Some? &&
        Before(IsoFields(checkIn), IsoFields(checkOut)))
    ensures var o := NightsOutcome(checkIn, checkOut, pricePerNight);
      o.Some? && o.value.nights > 0 ==> o.value.nights == StayNights(checkIn, checkOut).value
  {
    if checkIn != "" && checkOut != "" && ParseIsoDate(checkIn).Some? && ParseIsoDate(checkOut).Some? {
      StayNightsPositive(checkIn, checkOut);
    }
  }

  /* ---------- Display: formatNumberWithCommas ---------- */

  /** `Math.round(x)` for a non-negative x: halves round up. */
  function Round(x: real): (n: nat)
    requires x >= 0.0
    ensures n as real <= x + 0.5 < n as real + 1.0
  {
    (x + 0.5).Floor
  }

  /** Digits grouped by threes from the right, the groups joined by commas. */
  function GroupThousands(d: string): (r: string)
    decreases |d|
  {
    if |d| <= 3 then d else GroupThousands(d[..|d| - 3]) + "," + d[|d| - 3..]
  }

  /** The reading of `/\B(?=(\d{3})+(?!\d))/g` on a string of digits: a comma
      goes before every position p, not at either end, that is followed by a
      multiple of three digits up to the end. This renders d[i..] with them. */
  function SeparatorsFrom(d: string, i: nat): (r: string)
    requires i <= |d|
    decreases |d| - i
  {
    if i == |d| then []
    else (if 0 < i && (|d| - i) % 3 == 0 then "," else "") + [d[i]] + SeparatorsFrom(d, i + 1)
  }

  lemma {:induction false} SeparatorsFromSplit(p: string, q: string, i: nat)
    requires |q| == 3 && 0 < |p| && i <= |p|
    ensures SeparatorsFrom(p + q, i) == SeparatorsFrom(p, i) + "," + q
    decreases |p| - i
  {
    var d := p + q;
    if i == |p| {
      SeparatorsFromLastGroup(p, q);
    } else {
      SeparatorsFromSplit(p, q, i + 1);
      ThreeMore(|p| - i);
      var sep := if 0 < i && (|p| - i) % 3 == 0 then "," else "";
      assert SeparatorsFrom(d, i) == sep + [p[i]] + SeparatorsFrom(d, i + 1);
      assert SeparatorsFrom(p, i) == sep + [p[i]] + SeparatorsFrom(p, i + 1);
    }
  }

  lemma ThreeMore(n: nat)
    ensures (n + 3) % 3 == n % 3
  {
  }

  /** The last three digits, after at least one other, get one comma before them. */
  lemma SeparatorsFromLastGroup(p: string, q: string)
    requires |q| == 3 && 0 < |p|
    ensures SeparatorsFrom(p + q, |p|) == "," + q
  {
    var d, i := p + q, |p|;
    assert SeparatorsFrom(d, |d|) == [];
    assert SeparatorsFrom(d, i + 2) == [d[i + 2]];
    assert SeparatorsFrom(d, i + 1) == [d[i + 1], d[i + 2]];
    assert SeparatorsFrom(d, i) == [',', d[i], d[i + 1], d[i + 2]];
    assert d[i..] == q;
  }

  lemma {:induction false} SeparatorsFromShort(d: string, i: nat)
    requires |d| <= 3 && i <= |d|
    ensures SeparatorsFrom(d, i) == d[i..]
    decreases |d| - i
  {
    if i < |d| {
      SeparatorsFromShort(d, i + 1);
      assert d[i..] == [d[i]] + d[i + 1..];
    }
  }

  /** The grouping inserts the commas exactly where the pattern puts them. */
  lemma {:induction false} GroupThousandsIsPattern(d: string)
    ensures GroupThousands(d) == SeparatorsFrom(d, 0)
    decreases |d|
  {
    if |d| <= 3 {
      SeparatorsFromShort(d, 0);
    } else {
      var p, q := d[..|d| - 3], d[|d| - 3..];
      assert d == p + q;
      GroupThousandsIsPattern(p);
      SeparatorsFromSplit(p, q, 0);
    }
  }

  /** Stripping the commas from the display gives back the digits. */
  lemma {:induction false} GroupThousandsRemoveCommas(d: string)
    requires AllDigits(d)
    ensures RemoveCommas(GroupThousands(d)) == d
    decreases |d|
  {
    if |d| <= 3 {
      RemoveCommasNone(d);
    } else {
      var p, q := d[..|d| - 3], d[|d| - 3..];
      assert d == p + q;
      GroupThousandsRemoveCommas(p);
      RemoveCommasAppend(GroupThousands(p) + ",", q);
      RemoveCommasAppend(GroupThousands(p), ",");
      RemoveCommasNone(q);
    }
  }

  lemma {:induction false} RemoveCommasNone(d: string)
    requires AllDigits(d)
    ensures RemoveCommas(d) == d
    decreases |d|
  {
    if d != [] {
      RemoveCommasNone(d[1..]);
      assert d == [d[0]] + d[1..];
    }
  }

  /** `formatNumberWithCommas(number)`. */
  function FormatNumberWithCommas(n: Num): string {
    if !n.Finite? || n.r <= 0.0 then "N/A" else GroupThousands(NatToDigits(Round(n.r)))
  }

  /** A positive finite amount is shown as its rounded value with thousands
      separators, and the extractor's comma stripping reads it back exactly;
      every other amount is shown as "N/A". */
  lemma FormatNumberWithCommasMeaning(n: Num)
    ensures !n.Finite? || n.r <= 0.0 ==> FormatNumberWithCommas(n) == "N/A"
    ensures n.Finite? && n.r > 0.0 ==>
      FormatNumberWithCommas(n) == SeparatorsFrom(NatToDigits(Round(n.r)), 0) &&
      BoundValue(FormatNumberWithCommas(n)) == Some(Round(n.r))
  {
    if n.Finite? && n.r > 0.0 {
      var d := NatToDigits(Round(n.r));
      GroupThousandsIsPattern(d);
      GroupThousandsRemoveCommas(d);
      NatToDigitsRoundTrip(Round(n.r));
      ParseIntOfDigits(d);
    }
  }

  /* ---------- The form and its checks ---------- */

  datatype BookingForm = BookingForm(checkIn: string, checkOut: string, guests: Value,
                                     name: string, email: string, phone: string)

  /** The form's input fields, by their `name` attribute. */
  datatype FormField = CheckInField | CheckOutField | GuestsField | NameField | EmailField | PhoneField

  const InitialForm := BookingForm("", "", Number(Finite(1.0)), "", "", "")

  /** `setFormData(prev => ({ ...prev, [name]: value }))`; inputs always give strings. */
  function WithField(f: BookingForm, field: FormField, value: string): (g: BookingForm)
    ensures field == CheckInField ==> g == f.(checkIn := value)
    ensures field == CheckOutField ==> g == f.(checkOut := value)
    ensures field == GuestsField ==> g == f.(guests := Str(value))
    ensures field == NameField ==> g == f.(name := value)
    ensures field == EmailField ==> g == f.(email := value)
    ensures field == PhoneField ==> g == f.(phone := value)
  {
    match field
    case CheckInField => f.(checkIn := value)
    case CheckOutField => f.(checkOut := value)
    case GuestsField => f.(guests := Str(value))
    case NameField => f.(name := value)
    case EmailField => f.(email := value)
    case PhoneField => f.(phone := value)
  }

  const InvalidDatesError := "Check-out date must be after check-in date."
  const FillAllFieldsError := "Please fill in all fields."
  const InvalidTotalError := "Please select valid check-in and check-out dates and ensure a valid price."
  const MissingTripOrHotelError := "Missing trip or hotel information."

  /** The body posted to the checkout endpoint. */
  datatype CheckoutRequest = CheckoutRequest(
    tripId: string, checkIn: string, checkOut: string, guests: Value,
    name: string, email: string, phone: string, totalPrice: real, pricePerNight: real)

  /** The three checks of handleSubmit, in order: the message of the first
      that fails, or None when the booking may go to checkout. */
  function SubmitCheck(f: BookingForm, totalNights: int, totalPrice: real,
                       tripId: string, hotel: Option<Hotel>): (r: Option<string>)
  {
    if f.checkIn == "" || f.checkOut == "" || Less(ToNumber(f.guests), Finite(1.0))
       || f.name == "" || f.email == "" || f.phone == "" then Some(FillAllFieldsError)
    else if totalNights <= 0 || totalPrice <= 0.0 then Some(InvalidTotalError)
    else if tripId == "" || hotel.None? || !Truthy(hotel.value.hotelName) then Some(MissingTripOrHotelError)
    else None
  }

  /** A booking passes the checks exactly when every field is filled, the
      guest count is not below one, the stay and the total are positive and
      the trip and hotel are known; so no checkout request carries a total of
      zero or less. */
  lemma SubmitCheckMeaning(f: BookingForm, totalNights: int, totalPrice: real,
                           tripId: string, hotel: Option<Hotel>)
    ensures SubmitCheck(f, totalNights, totalPrice, tripId, hotel).None? <==>
      f.checkIn != "" && f.checkOut != "" && f.name != "" && f.email != "" && f.phone != "" &&
      !Less(ToNumber(f.guests), Finite(1.0)) && totalNights > 0 && totalPrice > 0.0 &&
      tripId != "" && hotel.Some? && Truthy(hotel.value.hotelName)
    ensures SubmitCheck(f, totalNights, totalPrice, tripId, hotel).Some? ==>
      SubmitCheck(f, totalNights, totalPrice, tripId, hotel).value in
        {FillAllFieldsError, InvalidTotalError, MissingTripOrHotelError}
  {
  }

  /** The hotel booking page's state. `tripId` and `hotel` come from the route
      and the navigation state and do not change while the page is shown. */
  class HotelBookingPage {
    const tripId: string
    const hotel: Option<Hotel>
    var pricePerNight: real
    var formData: BookingForm
    var totalNights: int
    var totalPrice: real
    var error: string
    var isLoading: bool

    /** The total always belongs to the current nights and price: the nights
        effect re-runs whenever the dates or the price per night change. */
    ghost predicate Valid()
      reads this
    {
      pricePerNight >= 0.0 && totalNights >= 0 && totalPrice == PriceOfNights(totalNights, pricePerNight)
    }

    /** Mounting the page: the initial state, then the price effect, then the
        nights effect (which finds no dates yet). */
    constructor (tripId: string, hotel: Option<Hotel>)
      ensures Valid()
      ensures this.tripId == tripId && this.hotel == hotel
      ensures pricePerNight == NightlyPrice(hotel).price
      ensures error == (if NightlyPrice(hotel).error.Some? then NightlyPrice(hotel).error.value else "")
      ensures formData == InitialForm && totalNights == 0 && totalPrice == 0.0 && !isLoading
    {
      this.tripId := tripId;
      this.hotel := hotel;
      pricePerNight := 0.0;
      formData := InitialForm;
      totalNights := 0;
      totalPrice := 0.0;
      error := "";
      isLoading := false;
      new;
      PriceEffect();
      NightsEffect();
    }

    /** The price effect (src/book-hotel/index.jsx:61-89). */
    method PriceEffect()
      modifies this`pricePerNight, this`error
      ensures pricePerNight == NightlyPrice(hotel).price
      ensures error == (if NightlyPrice(hotel).error.Some? then NightlyPrice(hotel).error.value else old(error))
    {
      var u := NightlyPrice(hotel);
      pricePerNight := u.price;
      if u.error.Some? {
        error := u.error.value;
      }
    }

    /** The nights effect (src/book-hotel/index.jsx:120-137). */
    method NightsEffect()
      requires Valid()
      modifies this`totalNights, this`totalPrice, this`error
      ensures Valid()
      ensures NightsOutcome(formData.checkIn, formData.checkOut, pricePerNight).None? ==>
        totalNights == old(totalNights) && totalPrice == old(totalPrice) && error == old(error)
      ensures NightsOutcome(formData.checkIn, formData.checkOut, pricePerNight).Some? ==>
        Totals(totalNights, totalPrice, error) == NightsOutcome(formData.checkIn, formData.checkOut, pricePerNight).value
    {
      var o := NightsOutcome(formData.checkIn, formData.checkOut, pricePerNight);
      if o.Some? {
        var t := o.value;
        totalNights, totalPrice, error := t.nights, t.total, t.error;
      }
    }

    /** An input change; a changed date re-runs the nights effect. */
    method HandleInputChange(field: FormField, value: string)
      requires Valid()
      modifies this`formData, this`totalNights, this`totalPrice, this`error
      ensures Valid()
      ensures formData == WithField(old(formData), field, value)
      ensures formData.checkIn == old(formData.checkIn) && formData.checkOut == old(formData.checkOut) ==>
        totalNights == old(totalNights) && totalPrice == old(totalPrice) && error == old(error)
      ensures NightsOutcome(formData.checkIn, formData.checkOut, pricePerNight).None? ==>
        totalNights == old(totalNights) && totalPrice == old(totalPrice) && error == old(error)
      ensures ((formData.checkIn != old(formData.checkIn) || formData.checkOut != old(formData.checkOut)) &&
               NightsOutcome(formData.checkIn, formData.checkOut, pricePerNight).Some?) ==>
        Totals(totalNights, totalPrice, error) == NightsOutcome(formData.checkIn, formData.checkOut, pricePerNight).value
    {
      var before := formData;
      formData := WithField(formData, field, value);
      if formData.checkIn != before.checkIn || formData.checkOut != before.checkOut {
        NightsEffect();
      }
    }

    /** Submitting the form (src/book-hotel/index.jsx:152-177). While a request
        is outstanding the submit button is disabled and nothing happens.
        Otherwise the error is cleared, the checks run, and when they pass
        the page turns busy and returns the request it posts. */
    method HandleSubmit() returns (request: Option<CheckoutRequest>)
      requires Valid()
      modifies this`error, this`isLoading
      ensures Valid()
      ensures old(isLoading) ==> request.None? && error == old(error) && isLoading
      ensures !old(isLoading) ==>
        var check := SubmitCheck(formData, totalNights, totalPrice, tripId, hotel);
        if check.Some? then
          request.None? && error == check.value && !isLoading
        else
          isLoading && error == "" &&
          request == Some(CheckoutRequest(tripId, formData.checkIn, formData.checkOut, formData.guests,
                                          formData.name, formData.email, formData.phone,
                                          totalPrice, pricePerNight))
      ensures request.Some? ==>
        request.value.totalPrice > 0.0 && request.value.pricePerNight > 0.0 &&
        totalNights >= 0 && request.value.totalPrice == PriceOfNights(totalNights, request.value.pricePerNight)
    {
      if isLoading {
        return None;
      }
      error := "";
      var check := SubmitCheck(formData, totalNights, totalPrice, tripId, hotel);
      if check.Some? {
        error := check.value;
        return None;
      }
      PositivePriceOfNights(totalNights, pricePerNight);
      isLoading := true;
      request := Some(CheckoutRequest(tripId, formData.checkIn, formData.checkOut, formData.guests,
                                      formData.name, formData.email, formData.phone,
                                      totalPrice, pricePerNight));
    }

    /** The end of a checkout attempt: a failure's message is shown, and the
        page is no longer busy. */
    method PaymentSettled(failure: Option<string>)
      modifies this`error, this`isLoading
      ensures !isLoading
      ensures error == (if failure.Some? then "Payment error: " + failure.value else old(error))
    {
      if failure.Some? {
        error := "Payment error: " + failure.value;
      }
      isLoading := false;
    }
  }
}
