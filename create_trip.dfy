/** The trip request page (src/create-trip/index.jsx): the form state and its
    input handler, the checks made before a plan is requested, the prompt
    built from the template (src/constants/options.jsx:60) by chained
    `String.prototype.replace` calls with string patterns, and the record
    saved for a generated trip. */
module CreateTrip {
  import opened Wrappers
  import opened Numerals
  import opened JsValues

  /* ---------- Form values ---------- */

  /** A form field: text typed or picked, a place chosen in the places
      widget (an object with a `label`), or null/undefined. */
  datatype FieldValue = Absent | Text(s: string) | Place(placeLabel: string)

  type TripForm = map<string, FieldValue>

  /** `formData[name]`; a key that was never set reads as undefined. */
  function Field(form: TripForm, name: string): FieldValue {
    if name in form then form[name] else Absent
  }

  predicate Filled(v: FieldValue) {
    match v
    case Absent => false
    case Text(s) => s != ""
    case Place(_) => true
  }

  const InitialTripForm: TripForm := map[
    "departureLocation" := Absent, "destination" := Absent, "days" := Text(""),
    "budget" := Text(""), "companion" := Text(""), "numberOfPeople" := Text("")]

  /** The six fields that must all be filled, in the order they are tested. */
  const TripFields: seq<string> := ["departureLocation", "destination", "days", "budget", "companion", "numberOfPeople"]

  const MaxDays := 7
  const FillAllFieldsToast := "Please fill in all fields before generating the trip."
  const TooManyDaysToast := "The number of days exceeds the allowed limit (7 days)."

  /** `String(v)` for a field used as a replacement text. */
  function TextOf(v: FieldValue): string {
    match v
    case Absent => "null"
    case Text(s) => s
    case Place(_) => "[object Object]"
  }

  /** `parseInt(days)`: the field is turned into a string first. */
  function DaysNumber(v: FieldValue): Option<int> { ParseInt(TextOf(v)) }

  /** The checks of `onGenerateTrip` after the sign-in check: the toast that
      stops the request, or None when it goes ahead. Only the upper bound on
      the days is checked; NaN > 7 is false. */
  function TripCheck(form: TripForm): (toast: Option<string>)
    ensures toast.None? || toast == Some(FillAllFieldsToast) || toast == Some(TooManyDaysToast)
  {
    if !Filled(Field(form, "departureLocation")) || !Filled(Field(form, "destination")) ||
       !Filled(Field(form, "days")) || !Filled(Field(form, "budget")) ||
       !Filled(Field(form, "companion")) || !Filled(Field(form, "numberOfPeople"))
    then Some(FillAllFieldsToast)
    else if DaysNumber(Field(form, "days")).Some? && DaysNumber(Field(form, "days")).value > MaxDays
    then Some(TooManyDaysToast)
    else None
  }

  /** A request goes ahead exactly when all six fields are filled and the
      days do not read as a number above 7. */
  lemma TripCheckMeaning(form: TripForm)
    ensures TripCheck(form).None? <==>
      (forall k :: 0 <= k < |TripFields| ==> Filled(Field(form, TripFields[k]))) &&
      !(DaysNumber(Field(form, "days")).Some? && DaysNumber(Field(form, "days")).value > MaxDays)
    ensures TripCheck(form) == Some(FillAllFieldsToast) <==>
      exists k :: 0 <= k < |TripFields| && !Filled(Field(form, TripFields[k]))
  {
    if forall k :: 0 <= k < |TripFields| ==> Filled(Field(form, TripFields[k])) {
    } else {
      var k :| 0 <= k < |TripFields| && !Filled(Field(form, TripFields[k]));
      assert k == 0 || k == 1 || k == 2 || k == 3 || k == 4 || k == 5;
    }
    assert TripFields[0] == "departureLocation" && TripFields[1] == "destination" && TripFields[2] == "days";
    assert TripFields[3] == "budget" && TripFields[4] == "companion" && TripFields[5] == "numberOfPeople";
  }

  /** Only the upper bound is checked: "0" days and "abc" days pass, "8" does not. */
  lemma DayLimitExamples()
    ensures DaysNumber(Text("0")) == Some(0)
    ensures DaysNumber(Text("abc")).None?
    ensures DaysNumber(Text("8")) == Some(8)
  {
    ParseIntOfDigits("0");
    ParseIntOfDigits("8");
    assert DigitsValue("0") == 0 && DigitsValue("8") == 8 by {
      assert "0"[..0] == [] && "8"[..0] == [];
    }
  }

  /* ---------- The prompt ---------- */

  /** The leftmost index at or after i where p occurs in s. */
  function IndexOfFrom(s: string, p: string, i: nat): (r: Option<nat>)
    requires i <= |s|
    ensures r.Some? ==> i <= r.value <= |s| && StartsWithAt(s, r.value, p) &&
                        forall k :: i <= k < r.value ==> !StartsWithAt(s, k, p)
    ensures r.None? ==> forall k :: i <= k <= |s| ==> !StartsWithAt(s, k, p)
    decreases |s| - i
  {
    if StartsWithAt(s, i, p) then Some(i)
    else if i == |s| then None
    else IndexOfFrom(s, p, i + 1)
  }

  /** The replacement text of `replace` for a string pattern: `$$` is a
      dollar sign, `$&` the matched text, `` $` `` the text before the match
      and `$'` the text after it; any other `$` is kept as written (a string
      pattern has no capture groups). */
  function Substitution(matched: string, str: string, position: nat, replacement: string): string
    requires position + |matched| <= |str|
    decreases |replacement|
  {
    if replacement == [] then []
    else if replacement[0] == '$' && |replacement| >= 2 && replacement[1] == '$' then
      "$" + Substitution(matched, str, position, replacement[2..])
    else if replacement[0] == '$' && |replacement| >= 2 && replacement[1] == '&' then
      matched + Substitution(matched, str, position, replacement[2..])
    else if replacement[0] == '$' && |replacement| >= 2 && replacement[1] == '`' then
      str[..position] + Substitution(matched, str, position, replacement[2..])
    else if replacement[0] == '$' && |replacement| >= 2 && replacement[1] == '\'' then
      str[position + |matched|..] + Substitution(matched, str, position, replacement[2..])
    else [replacement[0]] + Substitution(matched, str, position, replacement[1..])
  }

  predicate NoDollar(s: string) { forall k :: 0 <= k < |s| ==> s[k] != '$' }
  predicate NoBrace(s: string) { forall k :: 0 <= k < |s| ==> s[k] != '{' }

  /** A replacement without a dollar sign is inserted as it is. */
  lemma {:induction false} SubstitutionOfPlainText(matched: string, str: string, position: nat, replacement: string)
    requires position + |matched| <= |str|
    requires NoDollar(replacement)
    ensures Substitution(matched, str, position, replacement) == replacement
    decreases |replacement|
  {
    if replacement != [] {
      SubstitutionOfPlainText(matched, str, position, replacement[1..]);
      assert [replacement[0]] + replacement[1..] == replacement;
    }
  }

  /** `s.replace(p, r)` with a string pattern: only the first occurrence is replaced. */
  function ReplaceFirst(s: string, p: string, replacement: string): (r: string)
    ensures IndexOfFrom(s, p, 0).None? ==> r == s
  {
    match IndexOfFrom(s, p, 0)
    case None => s
    case Some(i) => s[..i] + Substitution(p, s, i, replacement) + s[i + |p|..]
  }

  /** A placeholder starting with '{' is found right after a prefix without '{'. */
  lemma {:induction false} PlaceholderAfterPlainPrefix(x: string, p: string, y: string, i: nat)
    requires NoBrace(x) && |p| > 0 && p[0] == '{' && i <= |x|
    ensures IndexOfFrom(x + p + y, p, i) == Some(|x|)
    decreases |x| - i
  {
    var s := x + p + y;
    assert s[|x|..|x| + |p|] == p;
    if i < |x| {
      assert s[i] == x[i];
      assert !StartsWithAt(s, i, p);
      PlaceholderAfterPlainPrefix(x, p, y, i + 1);
    }
  }

  /** Replacing a placeholder that follows a prefix without '{' by a text
      without '$' puts the text in its place and leaves the rest alone. */
  lemma ReplacePlaceholder(x: string, p: string, y: string, replacement: string)
    requires NoBrace(x) && |p| > 0 && p[0] == '{' && NoDollar(replacement)
    ensures ReplaceFirst(x + p + y, p, replacement) == x + replacement + y
  {
    var s := x + p + y;
    PlaceholderAfterPlainPrefix(x, p, y, 0);
    SubstitutionOfPlainText(p, s, |x|, replacement);
    assert s[..|x|] == x;
    assert s[|x| + |p|..] == y;
  }

  /** The template, cut at its placeholders. */
  const PromptHead := "Generate Travel Plan For Location: "
  const AfterDestination := ", for "
  const AfterDays := " Days for "
  const AfterPeople := " Number of People for "
  const AfterCompanion := " with a budget of "
  const AfterBudget := " in PKR in the format lowest range - highest range (e.g., 25000 - 50000). Ensure all prices, including budget, hotel prices, and ticket pricing, are provided in PKR. If prices are available in dollars, convert them to PKR using the current exchange rate (e.g., 1 USD = 291 PKR, or the most recent rate available). Provide a Hotel options list with HotelName, Hotel address, Price in the format lowest range - highest range (e.g., 25000 - 50000), hotel image url, geo coordinates, ticket Pricing, Time travel each of the location for "
  const PromptTail := " days with each day plan with best time to visit in JSON format."

  /** `AI_Prompt`: `{days}` occurs twice. */
  const AiPrompt := PromptHead + "{destination}" + (AfterDestination + "{days}" + (AfterDays + "{numberOfPeople}" +
                    (AfterPeople + "{companion}" + (AfterCompanion + "{budget}" + (AfterBudget + "{days}" + PromptTail)))))

  /** The chained replacements of `onGenerateTrip`, in their order. */
  function PromptFrom(destination: string, days: string, people: string, companion: string, budget: string): string {
    ReplaceFirst(ReplaceFirst(ReplaceFirst(ReplaceFirst(ReplaceFirst(AiPrompt,
      "{destination}", destination), "{days}", days), "{numberOfPeople}", people),
      "{companion}", companion), "{budget}", budget)
  }

  /** `destination.label`: a place's label; the label of anything else is undefined. */
  function LabelText(v: FieldValue): string {
    if v.Place? then v.placeLabel else "undefined"
  }

  /** The prompt sent for a form that passed the checks. */
  function FinalPrompt(form: TripForm): string {
    PromptFrom(LabelText(Field(form, "destination")), TextOf(Field(form, "days")),
               TextOf(Field(form, "numberOfPeople")), TextOf(Field(form, "companion")),
               TextOf(Field(form, "budget")))
  }

  /** The template with the five values in the five first placeholders and
      the second `{days}` still in place. */
  function FilledTemplate(destination: string, days: string, people: string, companion: string, budget: string): string {
    PromptHead + destination + AfterDestination + days + AfterDays + people + AfterPeople + companion +
    AfterCompanion + budget + (AfterBudget + "{days}" + PromptTail)
  }

  lemma NoBraceAppend(a: string, b: string)
    requires NoBrace(a) && NoBrace(b)
    ensures NoBrace(a + b)
  {
  }

  lemma Regroup(x: string, b: string, p: string, y: string)
    ensures x + (b + p + y) == x + b + p + y
  {
  }

  /** Five chained replacements on a template whose text between the
      placeholders has no '{': each value lands in its placeholder's place. */
  lemma {:induction false} FillFive(h: string, b: string, c: string, d: string, e: string, tail: string,
                                    v1: string, v2: string, v3: string, v4: string, v5: string)
    requires NoBrace(h) && NoBrace(b) && NoBrace(c) && NoBrace(d) && NoBrace(e)
    requires NoBrace(v1) && NoBrace(v2) && NoBrace(v3) && NoBrace(v4)
    requires NoDollar(v1) && NoDollar(v2) && NoDollar(v3) && NoDollar(v4) && NoDollar(v5)
    ensures ReplaceFirst(ReplaceFirst(ReplaceFirst(ReplaceFirst(ReplaceFirst(
              h + "{destination}" + (b + "{days}" + (c + "{numberOfPeople}" + (d + "{companion}" + (e + "{budget}" + tail)))),
              "{destination}", v1), "{days}", v2), "{numberOfPeople}", v3), "{companion}", v4), "{budget}", v5)
            == h + v1 + b + v2 + c + v3 + d + v4 + e + v5 + tail
  {
    var y5 := e + "{budget}" + tail;
    var y4 := d + "{companion}" + y5;
    var y3 := c + "{numberOfPeople}" + y4;
    var y2 := b + "{days}" + y3;
    var r1 := ReplaceFirst(h + "{destination}" + y2, "{destination}", v1);
    ReplacePlaceholder(h, "{destination}", y2, v1);
    var l1 := h + v1;
    assert NoBrace(l1) by { NoBraceAppend(h, v1); }

    var r2 := ReplaceFirst(r1, "{days}", v2);
    Regroup(l1, b, "{days}", y3);
    assert NoBrace(l1 + b) by { NoBraceAppend(l1, b); }
    ReplacePlaceholder(l1 + b, "{days}", y3, v2);
    var l2 := l1 + b + v2;
    assert NoBrace(l2) by { NoBraceAppend(l1 + b, v2); }

    var r3 := ReplaceFirst(r2, "{numberOfPeople}", v3);
    Regroup(l2, c, "{numberOfPeople}", y4);
    assert NoBrace(l2 + c) by { NoBraceAppend(l2, c); }
    ReplacePlaceholder(l2 + c, "{numberOfPeople}", y4, v3);
    var l3 := l2 + c + v3;
    assert NoBrace(l3) by { NoBraceAppend(l2 + c, v3); }

    var r4 := ReplaceFirst(r3, "{companion}", v4);
    Regroup(l3, d, "{companion}", y5);
    assert NoBrace(l3 + d) by { NoBraceAppend(l3, d); }
    ReplacePlaceholder(l3 + d, "{companion}", y5, v4);
    var l4 := l3 + d + v4;
    assert NoBrace(l4) by { NoBraceAppend(l3 + d, v4); }

    Regroup(l4, e, "{budget}", tail);
    assert NoBrace(l4 + e) by { NoBraceAppend(l4, e); }
    ReplacePlaceholder(l4 + e, "{budget}", tail, v5);
  }

  /** The text of the template between its placeholders has no '{'. */
  lemma TemplateTextIsPlain()
    ensures NoBrace(PromptHead) && NoBrace(AfterDestination) && NoBrace(AfterDays)
    ensures NoBrace(AfterPeople) && NoBrace(AfterCompanion)
  {
  }

  /** For values without '$', and without '{' in the first four, each
      placeholder but the second `{days}` is replaced by its value. */
  lemma PromptFromPlainValues(destination: string, days: string, people: string, companion: string, budget: string)
    requires NoBrace(destination) && NoBrace(days) && NoBrace(people) && NoBrace(companion)
    requires NoDollar(destination) && NoDollar(days) && NoDollar(people) && NoDollar(companion) && NoDollar(budget)
    ensures PromptFrom(destination, days, people, companion, budget) ==
            FilledTemplate(destination, days, people, companion, budget)
  {
    TemplateTextIsPlain();
    FillFive(PromptHead, AfterDestination, AfterDays, AfterPeople, AfterCompanion, AfterBudget + "{days}" + PromptTail,
             destination, days, people, companion, budget);
  }

  /** The second `{days}` of the template reaches the model unreplaced. */
  lemma SecondDaysPlaceholderStays(destination: string, days: string, people: string, companion: string, budget: string)
    requires NoBrace(destination) && NoBrace(days) && NoBrace(people) && NoBrace(companion)
    requires NoDollar(destination) && NoDollar(days) && NoDollar(people) && NoDollar(companion) && NoDollar(budget)
    ensures exists k :: 0 <= k <= |PromptFrom(destination, days, people, companion, budget)| &&
                        StartsWithAt(PromptFrom(destination, days, people, companion, budget), k, "{days}")
  {
    PromptFromPlainValues(destination, days, people, companion, budget);
    var filled := PromptHead + destination + AfterDestination + days + AfterDays + people + AfterPeople +
                  companion + AfterCompanion + budget;
    Regroup(filled, AfterBudget, "{days}", PromptTail);
    var before := filled + AfterBudget;
    OccursBetween(before, "{days}", PromptTail);
  }

  lemma OccursBetween(x: string, p: string, y: string)
    ensures StartsWithAt(x + p + y, |x|, p)
  {
    assert (x + p + y)[|x|..|x| + |p|] == p;
  }

  /** `$&` in a value puts the placeholder itself back: "{budget}" stays. */
  lemma DollarAmpersandKeepsPlaceholder(x: string, y: string)
    requires NoBrace(x)
    ensures ReplaceFirst(x + "{budget}" + y, "{budget}", "$&") == x + "{budget}" + y
  {
    var s := x + "{budget}" + y;
    PlaceholderAfterPlainPrefix(x, "{budget}", y, 0);
    assert "$&"[2..] == [];
    assert s[..|x|] == x && s[|x| + 8..] == y;
  }

  /* ---------- The saved record ---------- */

  /** `formData.place?.label` as stored: the label of a place, undefined otherwise. */
  function StoredLabel(v: FieldValue): FieldValue {
    if v.Place? then Text(v.placeLabel) else Absent
  }

  /** The document written for a generated trip: the form with the two
      places replaced by their labels, the parsed plan, the user's e-mail
      and the document id, which is also the document's key. */
  datatype SavedTrip = SavedTrip(userSelection: TripForm, tripData: Value, userEmail: Value, id: string)

  function SavedRecord(form: TripForm, tripData: Value, userEmail: Value, docId: string): (r: SavedTrip)
    ensures r.id == docId && r.tripData == tripData && r.userEmail == userEmail
    ensures r.userSelection.Keys == form.Keys + {"departureLocation", "destination"}
    ensures forall k :: k in form && k != "departureLocation" && k != "destination" ==> r.userSelection[k] == form[k]
    ensures r.userSelection["departureLocation"] == StoredLabel(Field(form, "departureLocation"))
    ensures r.userSelection["destination"] == StoredLabel(Field(form, "destination"))
  {
    SavedTrip(form["departureLocation" := StoredLabel(Field(form, "departureLocation"))]
                  ["destination" := StoredLabel(Field(form, "destination"))],
              tripData, userEmail, docId)
  }

  /* ---------- The page ---------- */

  /** What a click on "Generate Trip" leads to. */
  datatype GenerateOutcome = SignInRequested | Rejected(toast: string) | Requested(prompt: string)

  class CreateTripPage {
    var formData: TripForm
    var openDialog: bool
    var loading: bool

    constructor ()
      ensures formData == InitialTripForm && !openDialog && !loading
    {
      formData := InitialTripForm;
      openDialog := false;
      loading := false;
    }

    /** `handleInputChange(name, value)`: field `name` is set, every other
        field is kept. */
    method HandleInputChange(name: string, value: FieldValue)
      modifies this`formData
      ensures formData == old(formData)[name := value]
      ensures Field(formData, name) == value
      ensures forall k :: k != name ==> Field(formData, k) == Field(old(formData), k)
    {
      formData := formData[name := value];
    }

    /** `onGenerateTrip` up to the request to the model. Without a signed-in
        user the sign-in dialog opens and nothing is checked; a failed check
        shows its toast and changes nothing; otherwise the page turns busy
        and the prompt is sent. */
    method OnGenerateTrip(userSignedIn: bool) returns (outcome: GenerateOutcome)
      modifies this`openDialog, this`loading
      ensures !userSignedIn ==> outcome == SignInRequested && openDialog && loading == old(loading)
      ensures userSignedIn && TripCheck(formData).Some? ==>
        outcome == Rejected(TripCheck(formData).value) && unchanged(this)
      ensures userSignedIn && TripCheck(formData).None? ==>
        outcome == Requested(FinalPrompt(formData)) && loading && openDialog == old(openDialog)
      ensures outcome.Requested? ==> TripCheck(formData).None?
    {
      if !userSignedIn {
        openDialog := true;
        return SignInRequested;
      }
      var check := TripCheck(formData);
      if check.Some? {
        return Rejected(check.value);
      }
      loading := true;
      outcome := Requested(FinalPrompt(formData));
    }

    /** The `finally` of `onGenerateTrip`: the page is no longer busy. */
    method GenerationSettled()
      modifies this`loading
      ensures !loading
    {
      loading := false;
    }
  }
}
