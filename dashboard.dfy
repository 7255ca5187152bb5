/** The statistics of the dashboard page (src/dashboard/index.jsx): counts of
    the three collections, the budget spent, and the number of upcoming trips,
    computed from the Firestore documents; and the two display helpers the
    page uses for money and dates. */
module Dashboard {
  import opened Wrappers
  import opened JsValues
  import opened Dates

  /** A Firestore document as the page sees it: its id and its fields. */
  type Doc = map<string, Value>

  /** The five numbers shown on the dashboard. */
  datatype Stats = Stats(totalTrips: nat, totalRideBookings: nat, totalHotelBookings: nat,
                         totalBudgetSpent: Num, upcomingTrips: nat)

  /** The day the page counts from: `new Date('2025-05-22')`. */
  const Today: Date := Date(2025, 5, 22)

  /* ---------- The budget spent ---------- */

  /** `n || 0`: NaN and 0 become 0, every other number is kept. */
  function OrZero(n: Num): (r: Num)
    ensures !r.NaN?
    ensures r.Finite? && r.r == 0.0 <==> n.NaN? || (n.Finite? && n.r == 0.0)
    ensures r != Finite(0.0) ==> r == n
  {
    if n.NaN? || (n.Finite? && n.r == 0.0) then Finite(0.0) else n
  }

  /** `parseFloat(booking.totalPrice) || 0`. */
  function HotelContribution(booking: Doc): Num {
    OrZero(ParseFloatValue(Get(Object(booking), "totalPrice")))
  }

  /** `parseFloat(ride.userSelection?.budget) || 0`. */
  function RideContribution(ride: Doc): Num {
    OrZero(ParseFloatValue(Get(Get(Object(ride), "userSelection"), "budget")))
  }

  predicate IsLuxury(trip: Doc) { Get(Object(trip), "budget") == Str("Luxury") }

  /** `trip.budget === 'Luxury' ? 50000 : 0`. */
  function TripContribution(trip: Doc): real {
    if IsLuxury(trip) then 50000.0 else 0.0
  }

  /** `hotels.reduce((sum, b) => sum + (parseFloat(b.totalPrice) || 0), 0)`,
      folding from the left. */
  function HotelSum(hotels: seq<Doc>): Num {
    if hotels == [] then Finite(0.0)
    else Add(HotelSum(hotels[..|hotels| - 1]), HotelContribution(hotels[|hotels| - 1]))
  }

  function RideSum(rides: seq<Doc>): Num {
    if rides == [] then Finite(0.0)
    else Add(RideSum(rides[..|rides| - 1]), RideContribution(rides[|rides| - 1]))
  }

  /** The trips' reduce adds only 50000s and 0s, so its running sum is
      always a finite number; it is kept as an exact real. */
  function TripSum(trips: seq<Doc>): real {
    if trips == [] then 0.0
    else TripSum(trips[..|trips| - 1]) + TripContribution(trips[|trips| - 1])
  }

  /** The number of trips whose budget is exactly "Luxury". */
  function LuxuryCount(trips: seq<Doc>): (n: nat)
    ensures n <= |trips|
  {
    if trips == [] then 0
    else LuxuryCount(trips[..|trips| - 1]) + (if IsLuxury(trips[|trips| - 1]) then 1 else 0)
  }

  /** The trips add 50000 for each luxury trip and nothing else. */
  lemma {:induction false} TripSumIsLuxuryCount(trips: seq<Doc>)
    ensures TripSum(trips) == LuxuryCount(trips) as real * 50000.0
    decreases |trips|
  {
    if trips != [] {
      TripSumIsLuxuryCount(trips[..|trips| - 1]);
    }
  }

  /** The hotel sum is finite when no booking's amount parses as an infinity. */
  lemma {:induction false} HotelSumBounds(hotels: seq<Doc>)
    requires forall k :: 0 <= k < |hotels| ==> !HotelContribution(hotels[k]).PosInf? && !HotelContribution(hotels[k]).NegInf?
    ensures HotelSum(hotels).Finite?
    decreases |hotels|
  {
    if hotels != [] {
      HotelSumBounds(hotels[..|hotels| - 1]);
    }
  }

  /** The ride sum is finite when no ride's budget parses as an infinity. */
  lemma {:induction false} RideSumBounds(rides: seq<Doc>)
    requires forall k :: 0 <= k < |rides| ==> !RideContribution(rides[k]).PosInf? && !RideContribution(rides[k]).NegInf?
    ensures RideSum(rides).Finite?
    decreases |rides|
  {
    if rides != [] {
      RideSumBounds(rides[..|rides| - 1]);
    }
  }

  /** A booking whose total does not parse (NaN) counts as 0. */
  lemma UnparseableBookingAddsNothing(hotels: seq<Doc>, booking: Doc)
    requires ParseFloatValue(Get(Object(booking), "totalPrice")).NaN?
    ensures HotelSum(hotels + [booking]) == Add(HotelSum(hotels), Finite(0.0))
  {
    assert (hotels + [booking])[..|hotels|] == hotels;
  }

  /* ---------- Upcoming trips ---------- */

  /** `trip.itinerary?.day1?.activities?.[0]?.placeDetails`. */
  function PlaceDetails(trip: Doc): Value {
    Get(First(Get(Get(Get(Object(trip), "itinerary"), "day1"), "activities")), "placeDetails")
  }

  predicate Contains(t: string, w: string) {
    exists k :: 0 <= k <= |t| && StartsWithAt(t, k, w)
  }

  /** The filter callback for one trip: Some(upcoming), or None when it throws
      a TypeError. `includes('2025')` is the string method on a string and the
      array method on an array; on a number, boolean or object it is not a
      function. An array that holds "2025" passes the check and then has no
      `match` method. A string with no `YYYY-MM-DD` date gives an Invalid
      Date, which compares false. */
  function IsUpcoming(trip: Doc): (r: Option<bool>)
    ensures r.None? <==>
      (var pd := PlaceDetails(trip);
       pd.Number? || pd.Bool? || pd.Object? || (pd.Array? && Str("2025") in pd.items))
  {
    match PlaceDetails(trip)
    case Undefined => Some(false)
    case Null => Some(false)
    case Str(t) =>
      if !Contains(t, "2025") then Some(false)
      else
        (match FindIsoDate(t, 0)
         case None => Some(false)
         case Some(d) => Some(ParseIsoDate(d).Some? && ParseIsoDate(d).value > DayNumber(Today)))
    case Array(items) => if Str("2025") in items then None else Some(false)
    case _ => None
  }

  /** A trip is upcoming exactly when its first activity's text mentions 2025
      and its first `YYYY-MM-DD` date is a real date later than 2025-05-22. */
  lemma UpcomingMeaning(trip: Doc)
    ensures IsUpcoming(trip) == Some(true) <==>
      PlaceDetails(trip).Str? && Contains(PlaceDetails(trip).s, "2025") &&
      FindIsoDate(PlaceDetails(trip).s, 0).Some? &&
      ParseIsoDate(FindIsoDate(PlaceDetails(trip).s, 0).value).Some? &&
      Before(Today, IsoFields(FindIsoDate(PlaceDetails(trip).s, 0).value))
  {
    var pd := PlaceDetails(trip);
    if pd.Str? && FindIsoDate(pd.s, 0).Some? {
      var d := FindIsoDate(pd.s, 0).value;
      if ParseIsoDate(d).Some? {
        DayNumberOrder(Today, IsoFields(d));
      }
    }
  }

  /** `items.filter(keep).length`, where the callback answers Some(kept) or
      None when it throws: None when it throws for some item, since the
      filter stops there. */
  function FilterCount(items: seq<Doc>, keep: Doc -> Option<bool>): (r: Option<nat>)
    ensures r.Some? <==> forall k :: 0 <= k < |items| ==> keep(items[k]).Some?
    ensures r.Some? ==> r.value <= |items|
  {
    if items == [] then Some(0)
    else match keep(items[0])
      case None => None
      case Some(b) =>
        var rest := FilterCount(items[1..], keep);
        if rest.None? then
          assert exists k :: 0 <= k < |items| && keep(items[k]).None? by {
            var k :| 0 <= k < |items[1..]| && keep(items[1..][k]).None?;
            assert items[k + 1] == items[1..][k];
          }
          None
        else
          assert forall k :: 0 <= k < |items| ==> keep(items[k]).Some? by {
            forall k | 0 <= k < |items| ensures keep(items[k]).Some? {
              if k > 0 { assert items[k] == items[1..][k - 1]; }
            }
          }
          Some(rest.value + (if b then 1 else 0))
  }

  /** The positions of the items the filter keeps. */
  function KeptIndices(items: seq<Doc>, keep: Doc -> Option<bool>): set<nat> {
    set k: nat | k < |items| && keep(items[k]) == Some(true)
  }

  /** Moving every position one place to the right. */
  function Shifted(positions: set<nat>): set<nat> {
    set k | k in positions :: k + 1
  }

  lemma {:induction false} ShiftedSize(positions: set<nat>)
    ensures |Shifted(positions)| == |positions|
    decreases |positions|
  {
    if positions != {} {
      var x :| x in positions;
      var rest := positions - {x};
      ShiftedSize(rest);
      assert Shifted(positions) == Shifted(rest) + {x + 1} by {
        forall y | y in Shifted(positions) ensures y in Shifted(rest) + {x + 1} {
          var k :| k in positions && y == k + 1;
          if k != x { assert k in rest; }
        }
      }
      assert x + 1 !in Shifted(rest);
    }
  }

  /** The kept positions of a non-empty sequence: its head, if kept, and the
      kept positions of its tail one place to the right. */
  lemma KeptIndicesSplit(items: seq<Doc>, keep: Doc -> Option<bool>)
    requires items != []
    ensures KeptIndices(items, keep) ==
            (if keep(items[0]) == Some(true) then {0} else {}) + Shifted(KeptIndices(items[1..], keep))
  {
    var tail := items[1..];
    forall k: nat | k in KeptIndices(items, keep) && k > 0
      ensures k in Shifted(KeptIndices(tail, keep))
    {
      assert items[k] == tail[k - 1];
      assert k - 1 in KeptIndices(tail, keep);
    }
    forall k | k in Shifted(KeptIndices(tail, keep))
      ensures k in KeptIndices(items, keep)
    {
      assert items[k] == tail[k - 1];
    }
  }

  /** When the callback never throws, the count is the number of items it keeps. */
  lemma {:induction false} FilterCountIsKeptSize(items: seq<Doc>, keep: Doc -> Option<bool>)
    requires FilterCount(items, keep).Some?
    ensures FilterCount(items, keep).value == |KeptIndices(items, keep)|
    decreases |items|
  {
    if items != [] {
      var tail := items[1..];
      FilterCountIsKeptSize(tail, keep);
      KeptIndicesSplit(items, keep);
      ShiftedSize(KeptIndices(tail, keep));
      assert 0 !in Shifted(KeptIndices(tail, keep));
    }
  }

  /** `trips.filter(isUpcoming).length`: None when the callback throws for
      some trip; otherwise the number of upcoming trips. */
  function CountUpcoming(trips: seq<Doc>): (r: Option<nat>)
    ensures r.Some? <==> forall k :: 0 <= k < |trips| ==> IsUpcoming(trips[k]).Some?
    ensures r.Some? ==> r.value == |KeptIndices(trips, IsUpcoming)| && r.value <= |trips|
  {
    var r := FilterCount(trips, IsUpcoming);
    if r.Some? then FilterCountIsKeptSize(trips, IsUpcoming); r else r
  }

  /** Trips whose first activity text is a string or absent never make the
      count throw. */
  lemma CountUpcomingNeverThrowsOnText(trips: seq<Doc>)
    requires forall k :: 0 <= k < |trips| ==> PlaceDetails(trips[k]).Str? || Nullish(PlaceDetails(trips[k]))
    ensures CountUpcoming(trips).Some?
  {
  }

  /* ---------- calculateStats ---------- */

  /** `calculateStats(trips, rides, hotels)`: None when it throws. */
  function CalculateStats(trips: seq<Doc>, rides: seq<Doc>, hotels: seq<Doc>): (r: Option<Stats>)
    ensures r.Some? <==> CountUpcoming(trips).Some?
    ensures r.Some? ==> r.value.totalTrips == |trips| && r.value.totalRideBookings == |rides| &&
                        r.value.totalHotelBookings == |hotels| && r.value.upcomingTrips <= r.value.totalTrips
    ensures r.Some? ==> r.value.upcomingTrips == CountUpcoming(trips).value &&
                        r.value.totalBudgetSpent == BudgetTotal(HotelSum(hotels), RideSum(rides), Finite(TripSum(trips)))
  {
    match CountUpcoming(trips)
    case None => None
    case Some(upcoming) => Some(Stats(|trips|, |rides|, |hotels|, BudgetTotal(HotelSum(hotels), RideSum(rides), Finite(TripSum(trips))), upcoming))
  }

  /** `totalBudgetSpent`: `0 + hotels + rides + trips` on JavaScript numbers,
      from the hotel sum, the ride sum and the trip sum. */
  function BudgetTotal(hotels: Num, rides: Num, trips: Num): (b: Num)
    ensures hotels.NaN? || rides.NaN? || trips.NaN? ==> b.NaN?
  {
    Add(Add(Add(Finite(0.0), hotels), rides), trips)
  }

  /** With finite hotel and ride sums (which `HotelSumBounds` and
      `RideSumBounds` give when no amount parses as an infinity), the budget
      spent is the hotel sum plus the ride sum plus 50000 per luxury trip. */
  lemma BudgetSpent(hotelSum: Num, rideSum: Num, trips: seq<Doc>)
    requires hotelSum.Finite? && rideSum.Finite?
    ensures BudgetTotal(hotelSum, rideSum, Finite(TripSum(trips)))
            == Finite(hotelSum.r + rideSum.r + LuxuryCount(trips) as real * 50000.0)
  {
    TripSumIsLuxuryCount(trips);
  }

  /** No documents: every statistic is 0. */
  lemma EmptyStats()
    ensures CalculateStats([], [], []) == Some(Stats(0, 0, 0, Finite(0.0), 0))
  {
  }

  /* ---------- Display helpers ---------- */

  /** `formatCurrency(amount)`: "N/A" unless the amount is truthy and parses
      to a positive finite number, which is then shown after "PKR " in the
      locale's format (`localize` stands for `toLocaleString('en-PK')`). */
  function FormatCurrency(amount: Value, localize: real -> string): (r: string)
    ensures var n := ParseFloatValue(amount);
      (|r| >= 4 && r[..4] == "PKR ") <==> Truthy(amount) && n.Finite? && n.r > 0.0
    ensures !(|r| >= 4 && r[..4] == "PKR ") ==> r == "N/A"
    ensures var n := ParseFloatValue(amount);
      Truthy(amount) && n.Finite? && n.r > 0.0 ==> r == "PKR " + localize(n.r)
  {
    var n := ParseFloatValue(amount);
    if !Truthy(amount) || !n.Finite? || n.r <= 0.0 then "N/A"
    else "PKR " + localize(n.r)
  }

  /** A truthy amount that is not a positive finite number is also "N/A":
      the text "0" is truthy but parses to zero. A missing amount is "N/A" too. */
  lemma FormatCurrencyOfZeroText(localize: real -> string)
    ensures FormatCurrency(Str("0"), localize) == "N/A"
    ensures FormatCurrency(Undefined, localize) == "N/A"
  {
    assert ParseFloatValue(Str("0")) == Finite(0.0) by { ParseFloatOfDigits(0); }
  }

  /** `formatDate(dateString)`: "N/A" for an empty or missing date; otherwise
      the localized date (`render` stands for parsing and
      `toLocaleDateString`). */
  function FormatDate(dateString: Value, render: Value -> string): (r: string)
    ensures !Truthy(dateString) ==> r == "N/A"
    ensures Truthy(dateString) ==> r == render(dateString)
  {
    if !Truthy(dateString) then "N/A" else render(dateString)
  }
}
