/** The booking page and the checkout endpoint together: the request that
    `handleSubmit` posts (src/book-hotel/index.jsx:205-220) is serialised
    with `JSON.stringify`, parsed by the backend, validated and converted
    (payments/views.py:82-101). */
module CheckoutPipeline {
  import opened Wrappers
  import opened JsValues
  import opened BookHotel
  import opened Payments

  /** A top-level value of `JSON.stringify`: an undefined property is left
      out (None), a non-finite number becomes null, anything else is kept. */
  function JsonField(v: Value): (r: Option<Value>)
    ensures r.None? <==> v.Undefined?
  {
    match v
    case Undefined => None
    case Number(n) => Some(if n.Finite? then v else Null)
    case _ => Some(v)
  }

  /** The JSON body as the backend's parser reads it. */
  function RequestBody(r: CheckoutRequest): (body: map<string, Value>)
    ensures "guests" in body <==> !r.guests.Undefined?
    ensures "phone" in body && "totalPrice" in body && body["totalPrice"] == Number(Finite(r.totalPrice))
  {
    var fields := map[
      "tripId" := Str(r.tripId), "checkIn" := Str(r.checkIn), "checkOut" := Str(r.checkOut),
      "name" := Str(r.name), "email" := Str(r.email), "phone" := Str(r.phone),
      "totalPrice" := Number(Finite(r.totalPrice)), "pricePerNight" := Number(Finite(r.pricePerNight))];
    match JsonField(r.guests)
    case None => fields
    case Some(g) => fields["guests" := g]
  }

  /** The request `handleSubmit` builds from a booking that passed its checks. */
  function SubmittedRequest(f: BookingForm, totalPrice: real, pricePerNight: real, tripId: string): CheckoutRequest {
    CheckoutRequest(tripId, f.checkIn, f.checkOut, f.guests, f.name, f.email, f.phone, totalPrice, pricePerNight)
  }

  /** A booking that passed the page's checks reaches the backend with every
      required key, unless its guest count is undefined (JSON leaves the key
      out), and its total converts to the whole cents of total/291 dollars.
      The endpoint then answers 200 exactly when the provider creates the
      session it is asked for. */
  lemma SubmittedBookingIsCharged(f: BookingForm, totalNights: int, totalPrice: real, pricePerNight: real,
                                  tripId: string, hotel: Option<Hotel>, provider: SessionParams -> ProviderOutcome)
    requires SubmitCheck(f, totalNights, totalPrice, tripId, hotel).None?
    ensures var body := RequestBody(SubmittedRequest(f, totalPrice, pricePerNight, tripId));
      f.guests.Undefined? ==>
        Post(body, provider) == Response(400, ErrorMessage(MissingFieldMessage("guests")))
    ensures var body := RequestBody(SubmittedRequest(f, totalPrice, pricePerNight, tripId));
      !f.guests.Undefined? ==>
        FirstMissing(body, RequiredFields).None? &&
        TotalCents(body["totalPrice"]).Ok? &&
        TotalCents(body["totalPrice"]).value as real * PkrPerUsd <= 100.0 * totalPrice &&
        100.0 * totalPrice < (TotalCents(body["totalPrice"]).value + 1) as real * PkrPerUsd &&
        (Post(body, provider).status == 200 <==>
           provider(SessionFor(body, TotalCents(body["totalPrice"]).value)).Created?)
  {
    SubmitCheckMeaning(f, totalNights, totalPrice, tripId, hotel);
    var body := RequestBody(SubmittedRequest(f, totalPrice, pricePerNight, tripId));
    assert RequiredFields[3] == "guests";
    if f.guests.Undefined? {
      PostMissingField(body, provider, 3);
    } else {
      assert forall k :: 0 <= k < |RequiredFields| ==> RequiredFields[k] in body;
      ConvertedCents(totalPrice);
      PostSucceeds(body, provider);
    }
  }
}
