# Trip planner: booking price, dashboard statistics, checkout and trip requests

A Dafny model of the parts of the React trip planner and its Django payments
backend that decide which amounts of money reach the payment step, and of
the checks and prompt building of the trip request page:

- **Hotel booking page** (`src/book-hotel/index.jsx`).
  - The price per night is read from the model-generated price text: the
    leftmost `A - B` range, with its thousands commas stripped, gives the
    mean of the bounds plus a 5000 PKR fee; otherwise a single fallback
    number is used.
  - The nights come from the two ISO dates, and the total is nights times
    the price.
  - Submitting is refused for an empty field, a guest count below one, a
    stay or total that is not positive, or a missing trip or hotel.
  - Amounts are shown with thousands separators.
  - The page state (`pricePerNight`, `formData`, `totalNights`,
    `totalPrice`, `error`, `isLoading`) is a class. Each effect and handler
    is a method.
- **Dashboard** (`src/dashboard/index.jsx`). It shows counts of the three
  collections, the budget spent, and the number of upcoming trips. That
  number uses the first date in a trip's first activity, compared with
  2025-05-22. The page also formats money and dates.
- **Checkout endpoint** (`payments/views.py`).
  - The required keys are checked in order.
  - The total is read with Python's `float()` and converted from PKR to US
    cents at 1/291, truncating.
  - Each exception is mapped to a 400 or 500 response.
- **Trip request page** (`src/create-trip/index.jsx`).
  - Sign-in check and required fields.
  - The day limit checks only the upper bound.
  - The prompt is built by chained `replace` calls with string patterns,
    which replace only the first occurrence. The template
    (`src/constants/options.jsx:60`) holds `{days}` twice.
  - The record saved for a generated trip.
- **The pipeline between the two**: the body the booking page posts is
  read by the endpoint (`checkout_pipeline.dfy`).

Representation choices:

- Money is exact (`real`). JavaScript and Python numbers are `Num`: a finite
  real, ±Infinity or NaN.
- Dates are day numbers of the proleptic Gregorian calendar.
- Regular expressions are explicit scans over `seq<char>`.
- Firestore documents and JSON bodies are `Value`s: undefined, null,
  booleans, numbers, strings, arrays and objects.
- Calls to the payment provider and locale formatting are function
  parameters of the model.

Files:

| file | contents |
|---|---|
| `wrappers.dfy` | `Option`, `Result` |
| `numerals.dfy` | digit strings, decimal literal scanning |
| `js_values.dfy` | JavaScript numbers and values, truthiness, `?.`, `parseFloat`, `parseInt`, string-to-number |
| `dates.dfy` | calendar, day numbers, `YYYY-MM-DD` parsing and search |
| `book_hotel.dfy` | price extraction, nights, display format, submit checks, the page class |
| `payments.dfy` | required keys, `float()`, conversion, the endpoint |
| `dashboard.dfy` | statistics, `formatCurrency`, `formatDate` |
| `create_trip.dfy` | checks, `replace`, prompt, saved record, the page class |
| `checkout_pipeline.dfy` | the posted body read by the endpoint |

## Model

| member | source | states |
|---|---|---|
| JsValues.ParseFloat | src/book-hotel/index.jsx:83 | `parseFloat` is NaN exactly when no decimal literal or `Infinity` follows the leading white space and sign; a finite result is the signed value of the longest literal |
| JsValues.ParseFloatOfDigits | src/book-hotel/index.jsx:83 | the decimal text of a natural number parses back to that number |
| JsValues.ParseInt | src/book-hotel/index.jsx:72-73 | `parseInt(_, 10)` is NaN exactly when no digit follows the white space and sign |
| Numerals.ScaleUpIsProduct | src/book-hotel/index.jsx:83 | the exponent of a decimal literal multiplies its mantissa by 10 to that power |
| Numerals.ScaleDownIsQuotient | src/book-hotel/index.jsx:83 | the fraction digits and a negative exponent divide by 10 to their count or power |
| JsValues.ParseIntOfDigits | src/book-hotel/index.jsx:72-73 | a digit string is read as the number it spells |
| Dates.ParseIsoDate | src/book-hotel/index.jsx:124-125 | a `YYYY-MM-DD` string gives a day number exactly when it names a real calendar date, and that number is the date's; `Dates.NextDay` shows consecutive dates get consecutive numbers |
| Dates.NextDate | src/book-hotel/index.jsx:124-126 | the day after a valid date is a valid date that the calendar puts later |
| Dates.NextDay | src/book-hotel/index.jsx:124-126 | the day after a date, across a month end or a year end too, has the next day number |
| Dates.DayNumberOrder | src/book-hotel/index.jsx:126-128 | day numbers of valid dates are ordered exactly as the calendar orders the dates |
| Dates.FindIsoDate | src/dashboard/index.jsx:59 | `match(/\d{4}-\d{2}-\d{2}/)?.[0]` finds the leftmost date-shaped substring and finds none only when none exists |
| BookHotel.FindRange | src/book-hotel/index.jsx:69 | the range pattern's match is the leftmost index where it matches, and none means it matches nowhere |
| BookHotel.MatchRangeAtSound | src/book-hotel/index.jsx:69 | what is found at an index is a real match of `([\d,]+)\s*-\s*([\d,]+)` with maximal groups |
| BookHotel.MatchRangeAtComplete | src/book-hotel/index.jsx:69 | every match at an index is found, with its first group and the longest second group |
| BookHotel.BoundValueOfGroup | src/book-hotel/index.jsx:72-73 | a group of digits and commas, with its commas removed, is read as the number its digits spell; commas alone give NaN |
| BookHotel.NightlyPrice | src/book-hotel/index.jsx:61-89 | a missing or empty price sets 0 and "Hotel price information is missing.", and nothing else sets that error; the price per night is never negative, and a positive price never comes with an error |
| BookHotel.LeftmostRange | src/book-hotel/index.jsx:69 | a match of the range pattern at index i, after text where the pattern matches nowhere, is the match `match` returns, with its two groups |
| BookHotel.RangePrice | src/book-hotel/index.jsx:69-77 | when the pattern first matches at index i and both bounds are positive, the price is (A+B)/2 + 5000 with no error, commas ignored |
| BookHotel.RangeWithoutPositiveBounds | src/book-hotel/index.jsx:72-81 | when the pattern first matches at index i and a bound is empty or zero, the price is 0 with "Invalid hotel price format." |
| BookHotel.FallbackPrice | src/book-hotel/index.jsx:82-88 | without a range, a positive finite fallback is kept; otherwise the price is 0, with the fallback error only when the number is not NaN or +Infinity |
| BookHotel.ExamplePriceRange | src/book-hotel/index.jsx:69-77 | "25,000 - 50,000" gives 42500 a night |
| BookHotel.StayNights | src/book-hotel/index.jsx:124-126 | the nights are the difference of the two day numbers, and NaN when either date is invalid; `BookHotel.StayOfOneNight` shows that the next calendar day is one night |
| BookHotel.StayOfOneNight | src/book-hotel/index.jsx:124-126 | check-out on the calendar day after check-in is one night, across a month or year end too |
| BookHotel.ExampleYearEndStay | src/book-hotel/index.jsx:124-126 | 2024-12-31 to 2025-01-01 is one night |
| BookHotel.StayNightsPositive | src/book-hotel/index.jsx:128 | the stay is positive exactly when check-out is a later calendar date than check-in |
| BookHotel.ExampleStay | src/book-hotel/index.jsx:124-126 | 2025-06-01 to 2025-06-04 is three nights |
| BookHotel.PriceOfNightsIsProduct | src/book-hotel/index.jsx:130 | the total the model keeps is the nights times the price per night |
| BookHotel.PositivePriceOfNights | src/book-hotel/index.jsx:130 | a positive total comes only from a positive price and at least one night |
| BookHotel.StayTotals | src/book-hotel/index.jsx:128-136 | the nights set are never negative and the total is always the nights times the price |
| BookHotel.NightsOutcome | src/book-hotel/index.jsx:120-137 | the nights effect keeps the total equal to nights times price |
| BookHotel.NightsOutcomeMeaning | src/book-hotel/index.jsx:120-137 | an empty date changes nothing; otherwise the stay is set with no error exactly when check-out is later, and otherwise zero nights, a zero total and the date error |
| BookHotel.GroupThousandsIsPattern | src/book-hotel/index.jsx:37 | grouping digits by threes from the right puts commas exactly where `/\B(?=(\d{3})+(?!\d))/g` does |
| BookHotel.FormatNumberWithCommasMeaning | src/book-hotel/index.jsx:35-38 | a non-finite or non-positive number is "N/A"; a positive one is its rounded value with the pattern's commas, which the extractor's comma stripping reads back exactly |
| BookHotel.WithField | src/book-hotel/index.jsx:143-146 | an input change sets exactly the named field, to the text typed |
| BookHotel.SubmitCheckMeaning | src/book-hotel/index.jsx:157-175 | a booking passes exactly when every field is filled, guests are not below one, the stay and total are positive and the trip and hotel are known |
| BookHotel.HotelBookingPage.constructor | src/book-hotel/index.jsx:61-89 | mounting runs the price effect, then the nights effect, on the initial form; the page invariant holds |
| BookHotel.HotelBookingPage.PriceEffect | src/book-hotel/index.jsx:61-89 | the price effect sets the price per night, and sets the error only when the price function gives one |
| BookHotel.HotelBookingPage.NightsEffect | src/book-hotel/index.jsx:120-137 | the nights effect sets exactly the nights, total and error of the nights function, or nothing when a date is empty, and keeps the total equal to nights times price |
| BookHotel.HotelBookingPage.HandleInputChange | src/book-hotel/index.jsx:143-146 | the form gets the new field; a changed date re-runs the nights effect; otherwise the totals and error stay |
| BookHotel.HotelBookingPage.HandleSubmit | src/book-hotel/index.jsx:152-177 | a busy page ignores the click; otherwise the error is cleared and either the first failing check's message is set or the page turns busy and returns the request it sends to checkout, whose total is positive and equal to nights times price; a failure before or during the sending is `PaymentSettled` |
| BookHotel.HotelBookingPage.PaymentSettled | src/book-hotel/index.jsx:238-243 | a failed checkout shows "Payment error: " and its message; the page is no longer busy |
| Payments.FirstMissing | payments/views.py:65-68 | no field is missing exactly when every required field is a key; otherwise the first one in order that is not a key |
| Payments.ValidateRequestData | payments/views.py:55-68 | the loop raises exactly when a field is missing, with "Missing required field: " and the first missing field |
| Payments.FirstMissingIsFirst | payments/views.py:65-68 | the field raised is the first missing one in list order |
| Payments.PyParseFloat | payments/views.py:93 | `float()` of a string fails, with ValueError, exactly when the stripped string after its sign is not `inf`, `infinity` or `nan` in any case and not a decimal literal to its end; the words give the signed infinity and NaN, and a finite result is the literal's signed value |
| Payments.PyParseFloatOfDigits | payments/views.py:93 | the decimal text of a natural number is read back by `float()` |
| Payments.PyFloat | payments/views.py:93 | numbers are kept; null, lists and objects raise TypeError; only strings can raise ValueError |
| Payments.ConvertPkrToUsdCents | payments/views.py:32-53 | the conversion succeeds exactly for a positive finite total; a total that is not greater than 0 raises the converter's ValueError; NaN raises ValueError and +inf raises OverflowError |
| Payments.ConvertedCents | payments/views.py:47-48 | the cents are ⌊100·total/291⌋: never more than the converted total, short of it by less than a cent |
| Payments.ConvertMonotone | payments/views.py:47-48 | a larger total never gives fewer cents |
| Payments.ExampleConversion | payments/views.py:47-48 | 127500 PKR is 43814 cents |
| Payments.Post | payments/views.py:73-161 | every answer is 200, 400 or 500, and only a 200 carries a session id |
| Payments.PostMissingField | payments/views.py:145-149 | a missing required key is answered 400 with the validation message naming the first missing key |
| Payments.PostInvalidTotal | payments/views.py:92-101 | a total that `float()` rejects, one not greater than 0, and NaN are answered 400 "Invalid totalPrice format" |
| Payments.PostSucceeds | payments/views.py:82-143 | the answer is 200 exactly when every key is present, the total is positive and finite, and the provider creates the session for the converted amount |
| Payments.PhoneIsOptional | payments/views.py:129-139 | a request without `phone` passes validation, and the session carries an empty phone and the converted amount |
| Dashboard.OrZero | src/dashboard/index.jsx:52-53 | `n \|\| 0` is never NaN; it is 0 exactly for NaN and 0, and otherwise n |
| Dashboard.TripSumIsLuxuryCount | src/dashboard/index.jsx:54 | the trips add 50000 for each trip whose budget is exactly "Luxury" |
| Dashboard.HotelSumBounds | src/dashboard/index.jsx:52 | the hotel sum is finite when no booking total parses as an infinity |
| Dashboard.RideSumBounds | src/dashboard/index.jsx:53 | the ride sum is finite when no ride budget parses as an infinity |
| Dashboard.UnparseableBookingAddsNothing | src/dashboard/index.jsx:52 | a booking whose total does not parse adds 0 |
| Dashboard.IsUpcoming | src/dashboard/index.jsx:57-61 | the filter callback throws exactly when the activity text is a number, boolean, object, or an array holding "2025" |
| Dashboard.UpcomingMeaning | src/dashboard/index.jsx:56-61 | a trip is upcoming exactly when its first activity text mentions 2025 and its first date-shaped substring is a real date after 2025-05-22 |
| Dashboard.FilterCount | src/dashboard/index.jsx:57-62 | `filter(...).length` throws exactly when its callback throws for some item, and is never more than the number of items |
| Dashboard.FilterCountIsKeptSize | src/dashboard/index.jsx:57-62 | when the callback never throws, the length is the number of positions whose item the callback keeps |
| Dashboard.CountUpcoming | src/dashboard/index.jsx:57-62 | the count throws exactly when the callback throws for some trip; otherwise it is the number of trips whose callback answers true |
| Dashboard.CountUpcomingNeverThrowsOnText | src/dashboard/index.jsx:57-62 | trips whose activity text is a string or absent never make the count throw |
| Dashboard.CalculateStats | src/dashboard/index.jsx:46-71 | the three totals are the collections' lengths, the budget is `0 + hotels + rides + trips` of the three reduces, and the upcoming count is the filter's count |
| Dashboard.BudgetSpent | src/dashboard/index.jsx:51-54 | with finite hotel and ride sums, `0 + hotels + rides + trips` is exactly the hotel sum plus the ride sum plus 50000 per luxury trip |
| Dashboard.EmptyStats | src/dashboard/index.jsx:46-71 | no documents give five zeros |
| Dashboard.FormatCurrency | src/dashboard/index.jsx:40-43 | the result starts "PKR " exactly when the amount is truthy and parses to a positive finite number, and is then "PKR " and the localized number; otherwise it is "N/A" |
| Dashboard.FormatCurrencyOfZeroText | src/dashboard/index.jsx:41 | "0" and a missing amount are "N/A" |
| Dashboard.FormatDate | src/dashboard/index.jsx:29-30 | an empty or missing date is "N/A" |
| CreateTrip.TripCheck | src/create-trip/index.jsx:57-67 | the only outcomes are: go ahead, the fill-all-fields toast, the day-limit toast |
| CreateTrip.TripCheckMeaning | src/create-trip/index.jsx:57-67 | a request goes ahead exactly when all six fields are filled and the days do not read as a number above 7; the fill-all-fields toast is shown exactly when a field is empty |
| CreateTrip.DayLimitExamples | src/create-trip/index.jsx:64-67 | "0" and "abc" days are not above 7; "8" is |
| CreateTrip.IndexOfFrom | src/create-trip/index.jsx:71-75 | the search finds the leftmost occurrence of the pattern, and none only when it does not occur |
| CreateTrip.ReplaceFirst | src/create-trip/index.jsx:71-75 | a pattern that does not occur leaves the text unchanged |
| CreateTrip.SubstitutionOfPlainText | src/create-trip/index.jsx:71-75 | a replacement text without `$` is inserted as it is |
| CreateTrip.ReplacePlaceholder | src/create-trip/index.jsx:71-75 | replacing a placeholder that follows text without '{' puts the value in its place and leaves the rest untouched |
| CreateTrip.FillFive | src/create-trip/index.jsx:71-75 | the five chained replacements put each value in the first occurrence of its placeholder |
| CreateTrip.PromptFromPlainValues | src/create-trip/index.jsx:71-75 | for plain values, the prompt is the template with the five values in place and the second `{days}` kept |
| CreateTrip.SecondDaysPlaceholderStays | src/constants/options.jsx:60 | the second `{days}` of the template reaches the model unreplaced |
| CreateTrip.DollarAmpersandKeepsPlaceholder | src/create-trip/index.jsx:75 | a value `$&` puts the placeholder itself back |
| CreateTrip.SavedRecord | src/create-trip/index.jsx:98-108 | the saved selection is the form with the two places replaced by their labels, and the record's id is the document id |
| CreateTrip.CreateTripPage.constructor | src/create-trip/index.jsx:19-29 | the form starts with the six fields empty, no dialog, not busy |
| CreateTrip.CreateTripPage.HandleInputChange | src/create-trip/index.jsx:33-35 | the named field gets the value and every other field is kept |
| CreateTrip.CreateTripPage.OnGenerateTrip | src/create-trip/index.jsx:47-75 | without a user only the dialog opens; a failed check changes nothing; otherwise the page turns busy and sends the prompt of the form |
| CreateTrip.CreateTripPage.GenerationSettled | src/create-trip/index.jsx:86-88 | the page is no longer busy |
| CheckoutPipeline.RequestBody | src/book-hotel/index.jsx:209-219 | the JSON body leaves out an undefined guest count and always carries the phone and the total |
| CheckoutPipeline.SubmittedBookingIsCharged | src/book-hotel/index.jsx:205-220 | a booking that passed the page's checks reaches the endpoint with every required key unless the guest count is undefined; it converts to the whole cents of total/291 dollars and is answered 200 exactly when the provider creates the session |

## Left out

- Firestore reads and writes, the model call, `localStorage`, Google sign-in, the `fetch` to the backend and the provider's redirect are I/O. The provider call is a function parameter of `Payments.Post`. A signed-in user is a boolean parameter of `OnGenerateTrip`. The outcome of the whole checkout attempt is the parameter of `PaymentSettled`.
- The mount validation effect of the booking page (src/book-hotel/index.jsx:43-56) is left out because it navigates away from the page.
- The guest-count fetch (src/book-hotel/index.jsx:94-115) is left out because it is a Firestore read.
- The asynchronous tail of `onGenerateTrip` and `SaveAiTrip` is not modelled as steps: the model call, the `setDoc` write and the navigation. Only the record written (`SavedRecord`) and the final `loading` reset are modelled.
- Floating point is replaced by exact arithmetic. This covers the float rate 1/291 and the product before `int()`, JavaScript numbers above 2^53, and Python floats that overflow to infinity. `round(total_price_usd, 2)` and `str(total_price_pkr)` in the session metadata are float formatting and are left out.
- Locale formatting (`toLocaleString('en-PK')`, `toLocaleDateString` with `Asia/Karachi`) is a function parameter of `FormatCurrency` and `FormatDate`.
- Payments.SessionParams: the product name and description texts built with f-strings are not part of the session parameters.
- Payments.Post: the body is a JSON object. A body of another JSON type makes the logging call fail (a 500), and that case is not modelled.
- Payments.PyParseFloat: underscores between digits and non-ASCII decimal digits, which Python's `float()` also accepts, are not modelled. The ValueError message omits the quoted input, which the endpoint discards anyway.
- Dashboard.TripSum: the trips' reduce adds only 50000s and 0s, so its running sum is kept as an exact real rather than a JavaScript number; the hotel and ride sums stay JavaScript numbers.
- JsValues.ParseFloatValue: `parseFloat` of an array is treated as NaN; JavaScript would first join the array into a string.
- JsValues.StringToNumber: hexadecimal, octal and binary literals (`"0x10"`) are read as NaN rather than as their value.
- Dates.ParseIsoDate: a date whose day is past the end of its month is an invalid Date here, which is the strict reading. V8 accepts any day up to 31 and rolls it over into the next month.
- BookHotel.Hotel: a truthy `price` that is not a string would make `.match` throw. The model takes the price text as a string.
- CreateTrip.DaysNumber: `parseInt(days)` has no radix and the model reads base 10. The two differ only on a `0x` prefix, which the `type="number"` input that sets `days` (src/create-trip/index.jsx:183-186) never produces. `parseInt` of a place object or null reads its string form (NaN), as JavaScript does.
- JSX rendering, the static pages, the router wiring and `payments/urls.py` are left out: they contain no logic of the core.
- `backend/payments/views.py` is an older copy of the endpoint without validation and is not part of this model.
