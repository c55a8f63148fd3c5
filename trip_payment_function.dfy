/** The serverless function that starts a trip payment: it validates the
    request, splits the amount into the platform commission and the driver's
    share, asks the payment provider for a hosted checkout and records a
    pending payment. The provider and the database are outside the model:
    their answers are parameters of the handler. */
module TripPaymentFunction {
  import opened Wrappers
  import Radix

  /** The percentage used when the request carries none. */
  const DefaultCommissionPercentage := 15

  /** JavaScript truthiness of an optional string: present and non-empty. */
  predicate Truthy(o: Option<string>) {
    o.Some? && o.value != ""
  }

  /** `o || fallback` on an optional string. */
  function OrElse(o: Option<string>, fallback: string): (r: string)
    ensures Truthy(o) ==> r == o.value
    ensures !Truthy(o) ==> r == fallback
  {
    if Truthy(o) then o.value else fallback
  }

  /** `o || null` on an optional string. */
  function OrNull(o: Option<string>): (r: Option<string>)
    ensures r.None? <==> !Truthy(o)
    ensures r.Some? ==> r == o
  {
    if Truthy(o) then o else None
  }

  /** `Math.round(n / 100)`: the nearest integer, halves rounded up. */
  function RoundHundredth(n: int): (r: int)
    ensures 2 * n - 100 < 200 * r <= 2 * n + 100
  {
    (n + 50) / 100
  }

  datatype Split = Split(commission: int, driver: int)

  /** The commission is the rounded percentage of the amount; the driver gets
      the remainder, which is never rounded on its own. */
  function ComputeSplit(amount: int, percentage: int): (s: Split)
    ensures s.commission + s.driver == amount
    ensures 2 * (amount * percentage) - 100 < 200 * s.commission <= 2 * (amount * percentage) + 100
    ensures amount >= 0 && 0 <= percentage <= 100 ==>
      0 <= s.commission <= amount && 0 <= s.driver <= amount
  {
    MulBounds(amount, percentage);
    var commission := RoundHundredth(amount * percentage);
    Split(commission, amount - commission)
  }

  /** For a percentage in [0, 100] of a non-negative amount the commission
      lies between zero and the amount, so the driver is never owed a
      negative sum. */
  lemma SplitBounds(amount: int, percentage: int)
    requires amount >= 0 && 0 <= percentage <= 100
    ensures 0 <= ComputeSplit(amount, percentage).commission <= amount
    ensures 0 <= ComputeSplit(amount, percentage).driver <= amount
  {
  }

  lemma MulBounds(a: int, p: int)
    ensures a >= 0 && 0 <= p <= 100 ==> 0 <= a * p <= a * 100
  {
    assert a * 100 - a * p == a * (100 - p);
  }

  /** Ties round up: 15 % of 999 is 149.85, giving 150 and 849; 15 % of 1000
      gives 150 and 850. A negative amount is not rejected: 15 % of -5 is
      -0.75, which rounds to -1. */
  lemma SplitExamples()
    ensures ComputeSplit(999, 15) == Split(150, 849)
    ensures ComputeSplit(1000, 15) == Split(150, 850)
    ensures ComputeSplit(10, 5) == Split(1, 9)
    ensures ComputeSplit(-5, 15) == Split(-1, -4)
  {
  }

  /** At 0 % the driver gets everything, at 100 % the platform does. */
  lemma {:induction false} SplitExtremes(amount: int)
    ensures ComputeSplit(amount, 0) == Split(0, amount)
    ensures ComputeSplit(amount, 100) == Split(amount, 0)
  {
    assert amount * 0 == 0;
    assert (amount * 100 + 50) / 100 == amount;
  }

  /** The JSON body of the request; absent fields are None. */
  datatype PaymentRequest = PaymentRequest(
    tripId: Option<string>,
    amount: Option<int>,
    userName: Option<string>,
    userEmail: Option<string>,
    driverName: Option<string>,
    description: Option<string>,
    commissionPercentage: Option<int>)

  /** The destructuring default: 15 only when the field is absent. */
  function RequestPercentage(req: PaymentRequest): (p: int)
    ensures req.commissionPercentage.None? ==> p == DefaultCommissionPercentage
    ensures req.commissionPercentage.Some? ==> p == req.commissionPercentage.value
  {
    req.commissionPercentage.GetOr(DefaultCommissionPercentage)
  }

  const MissingFieldsMessage := "Missing required fields: amount, userName"
  const MissingStripeKeyMessage := "STRIPE_SECRET_KEY is not set"

  /** `!amount || !userName`: the only check the function makes. */
  predicate RequestRejected(req: PaymentRequest) {
    req.amount.None? || req.amount.value == 0 || !Truthy(req.userName)
  }

  datatype Metadata = Metadata(
    tripId: string, userName: string, driverName: string,
    commissionAmount: string, driverAmount: string)

  /** What the function asks the payment provider for. */
  datatype CheckoutRequest = CheckoutRequest(
    customer: Option<string>,
    customerEmail: Option<string>,
    currency: string,
    productName: string,
    productDescription: Option<string>,
    unitAmount: int,
    quantity: int,
    mode: string,
    successUrl: string,
    cancelUrl: string,
    metadata: Metadata)

  /** What the provider answers: the session id, its hosted url and its
      payment intent, each of which may be missing. */
  datatype CheckoutSession = CheckoutSession(id: string, url: Option<string>, paymentIntent: Option<string>)

  /** The row inserted into the payments table. */
  datatype PaymentInsert = PaymentInsert(
    tripId: Option<string>,
    stripePaymentIntentId: Option<string>,
    amount: int,
    commissionAmount: int,
    driverAmount: int,
    userName: string,
    userEmail: Option<string>,
    driverName: Option<string>,
    description: string,
    status: string)

  datatype ResponseBody =
    | NoBody
    | Created(url: Option<string>, sessionId: string, paymentId: Option<string>)
    | Failed(error: string)

  datatype Response = Response(status: int, body: ResponseBody)

  /** Everything the handler does: what it answers, the email it looked up
      among the provider's customers, the checkout it asked for and the row
      it inserted. */
  datatype Outcome = Outcome(
    response: Response,
    customerLookup: Option<string>,
    checkout: Option<CheckoutRequest>,
    insert: Option<PaymentInsert>)

  function ErrorResponse(message: string): (r: Response)
    ensures r.status == 500 && r.body == Failed(message)
  {
    Response(500, Failed(message))
  }

  /** The metadata attached to the checkout carries the split as decimal
      strings that read back as the numbers stored in the row. */
  function MetadataFor(req: PaymentRequest, split: Split): (m: Metadata)
    requires !RequestRejected(req)
    ensures Radix.ParseInt(m.commissionAmount) == Some(split.commission)
    ensures Radix.ParseInt(m.driverAmount) == Some(split.driver)
    ensures m.tripId == (if Truthy(req.tripId) then req.tripId.value else "direct")
    ensures m.driverName == (if Truthy(req.driverName) then req.driverName.value else "")
    ensures m.userName == req.userName.value
  {
    Radix.IntToStringRoundTrip(split.commission);
    Radix.IntToStringRoundTrip(split.driver);
    Metadata(
      OrElse(req.tripId, "direct"),
      req.userName.value,
      OrElse(req.driverName, ""),
      Radix.IntToString(split.commission),
      Radix.IntToString(split.driver))
  }

  /** The checkout: one line item of the whole amount in centavos, the
      known customer if there is one and the email otherwise. */
  function CheckoutFor(req: PaymentRequest, customerId: Option<string>, origin: string, split: Split): (c: CheckoutRequest)
    requires !RequestRejected(req)
    ensures c.unitAmount == req.amount.value * 100 && c.quantity == 1
    ensures c.currency == "mxn" && c.mode == "payment"
    ensures Truthy(customerId) ==> c.customer == customerId && c.customerEmail.None?
    ensures !Truthy(customerId) ==> c.customer == customerId && c.customerEmail == req.userEmail
    ensures c.productDescription.Some? <==> Truthy(req.driverName)
    ensures c.metadata == MetadataFor(req, split)
    ensures c.successUrl == origin + "/pagos?success=true&trip_id=" + c.metadata.tripId
    ensures c.cancelUrl == origin + "/pagos?canceled=true"
  {
    var metadata := MetadataFor(req, split);
    CheckoutRequest(
      customerId,
      if Truthy(customerId) then None else req.userEmail,
      "mxn",
      "Viaje UberNext - " + OrElse(req.description, "Servicio de transporte"),
      if Truthy(req.driverName) then Some("Conductor: " + req.driverName.value) else None,
      req.amount.value * 100,
      1,
      "payment",
      origin + "/pagos?success=true&trip_id=" + metadata.tripId,
      origin + "/pagos?canceled=true",
      metadata)
  }

  /** The row: pending, with the split, no trip when the request names
      none, and a default description. */
  function RecordFor(req: PaymentRequest, session: CheckoutSession, split: Split): (r: PaymentInsert)
    requires !RequestRejected(req)
    requires split.commission + split.driver == req.amount.value
    ensures r.status == "pending"
    ensures r.amount == req.amount.value
    ensures r.commissionAmount + r.driverAmount == r.amount
    ensures r.commissionAmount == split.commission && r.driverAmount == split.driver
    ensures r.tripId.None? <==> !Truthy(req.tripId)
    ensures r.description == (if Truthy(req.description) then req.description.value else "Pago de viaje")
    ensures r.stripePaymentIntentId == OrNull(session.paymentIntent)
    ensures r.userName == req.userName.value && r.userEmail == req.userEmail && r.driverName == req.driverName
  {
    PaymentInsert(
      OrNull(req.tripId),
      OrNull(session.paymentIntent),
      req.amount.value,
      split.commission,
      split.driver,
      req.userName.value,
      req.userEmail,
      req.driverName,
      OrElse(req.description, "Pago de viaje"),
      "pending")
  }

  /** The request handler. `stripeKey` is the environment's secret,
      `lookup` the provider's answer to the customer search by email,
      `session` its answer to the checkout creation and `inserted` the
      database's answer to the insert (the new row's id); an Err is a thrown
      error, caught and answered with status 500. */
  method HandleRequest(
    httpMethod: string, stripeKey: Option<string>, req: PaymentRequest, origin: string,
    lookup: Result<seq<string>, string>, session: Result<CheckoutSession, string>,
    inserted: Result<string, string>)
    returns (out: Outcome)
    // CORS preflight: an empty answer and nothing else.
    ensures httpMethod == "OPTIONS" ==> out == Outcome(Response(200, NoBody), None, None, None)
    // A missing secret or a rejected request fails before anything is created.
    ensures httpMethod != "OPTIONS" && !Truthy(stripeKey) ==>
      out == Outcome(ErrorResponse(MissingStripeKeyMessage), None, None, None)
    ensures httpMethod != "OPTIONS" && Truthy(stripeKey) && RequestRejected(req) ==>
      out == Outcome(ErrorResponse(MissingFieldsMessage), None, None, None)
    // The customer search happens exactly when an email is given.
    ensures out.customerLookup.Some? ==> Truthy(req.userEmail) && out.customerLookup == req.userEmail
    // Nothing is inserted unless the checkout was created.
    ensures out.insert.Some? ==> session.Ok? && out.checkout.Some?
    ensures out.response.status == 200 || out.response.body.Failed?
    ensures out.response.body.Failed? ==> out.response.status == 500 && out.insert.None?
    ensures httpMethod != "OPTIONS" && Truthy(stripeKey) && !RequestRejected(req) ==>
      var split := ComputeSplit(req.amount.value, RequestPercentage(req));
      && (Truthy(req.userEmail) <==> out.customerLookup.Some?)
      && (out.checkout.Some? <==> !(Truthy(req.userEmail) && lookup.Err?))
      // The checkout names the first customer the search found, if any.
      && (out.checkout.Some? ==> out.checkout.value == CheckoutFor(req,
            if Truthy(req.userEmail) && lookup.Ok? && |lookup.value| > 0 then Some(lookup.value[0]) else None,
            origin, split))
      && (out.checkout.Some? && Truthy(req.userEmail) && |lookup.value| > 0 && lookup.value[0] != "" ==>
            out.checkout.value.customer == Some(lookup.value[0]) && out.checkout.value.customerEmail.None?)
      && (out.checkout.Some? && !(Truthy(req.userEmail) && |lookup.value| > 0 && lookup.value[0] != "") ==>
            out.checkout.value.customerEmail == req.userEmail)
      && (out.checkout.Some? ==> out.checkout.value.metadata == MetadataFor(req, split))
      && (out.checkout.Some? ==> out.checkout.value.unitAmount == req.amount.value * 100)
      && (Truthy(req.userEmail) && lookup.Err? ==> out.response == ErrorResponse(lookup.error))
      && (out.checkout.Some? && session.Err? ==> out.response == ErrorResponse(session.error) && out.insert.None?)
      && (out.checkout.Some? && session.Ok? ==>
            && out.insert == Some(RecordFor(req, session.value, split))
            // A failed insert still answers 200 with the url, without a payment id.
            && out.response == Response(200, Created(session.value.url, session.value.id,
                 if inserted.Ok? then Some(inserted.value) else None)))
  {
    if httpMethod == "OPTIONS" {
      return Outcome(Response(200, NoBody), None, None, None);
    }
    if !Truthy(stripeKey) {
      return Outcome(ErrorResponse(MissingStripeKeyMessage), None, None, None);
    }
    if RequestRejected(req) {
      return Outcome(ErrorResponse(MissingFieldsMessage), None, None, None);
    }
    var split := ComputeSplit(req.amount.value, RequestPercentage(req));

    var customerId: Option<string> := None;
    var searched: Option<string> := None;
    if Truthy(req.userEmail) {
      searched := req.userEmail;
      if lookup.Err? {
        return Outcome(ErrorResponse(lookup.error), searched, None, None);
      }
      if |lookup.value| > 0 {
        customerId := Some(lookup.value[0]);
      }
    }

    var checkout := CheckoutFor(req, customerId, origin, split);
    if session.Err? {
      return Outcome(ErrorResponse(session.error), searched, Some(checkout), None);
    }
    var row := RecordFor(req, session.value, split);
    var paymentId := if inserted.Ok? then Some(inserted.value) else None;
    out := Outcome(Response(200, Created(session.value.url, session.value.id, paymentId)),
                   searched, Some(checkout), Some(row));
  }
}
