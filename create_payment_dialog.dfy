/** The dialog that starts a payment: a live preview of the split, the
    submit guard, and the form state around the call. */
module CreatePaymentDialog {
  import opened Wrappers
  import TripPaymentFunction
  import PaymentsHook

  /** The preview: the same split the serverless function computes, at the
      effective percentage. */
  function PreviewSplit(amount: int, settings: Option<PaymentsHook.CommissionSettings>): (s: TripPaymentFunction.Split)
    ensures s.commission + s.driver == amount
    ensures amount >= 0 && 0 <= PaymentsHook.EffectiveCommissionPercentage(settings) <= 100 ==>
      0 <= s.commission <= amount && 0 <= s.driver <= amount
  {
    TripPaymentFunction.ComputeSplit(amount, PaymentsHook.EffectiveCommissionPercentage(settings))
  }

  /** `value || undefined` on a text field. */
  function EmptyAsUndefined(text: string): (o: Option<string>)
    ensures o.None? <==> text == ""
    ensures o.Some? ==> o.value == text
  {
    if text == "" then None else Some(text)
  }

  /** The argument `handleSubmit` passes to `createPayment`. */
  function SubmittedInput(tripId: Option<string>, amount: int, userName: string,
                          userEmail: string, driverName: string, description: string): (i: PaymentsHook.PaymentInput)
    ensures i.amount == amount && i.userName == userName && i.tripId == tripId
    ensures i.userEmail == EmptyAsUndefined(userEmail)
    ensures i.driverName == EmptyAsUndefined(driverName)
    ensures i.description == EmptyAsUndefined(description)
  {
    PaymentsHook.PaymentInput(tripId, amount, userName, EmptyAsUndefined(userEmail),
                              EmptyAsUndefined(driverName), EmptyAsUndefined(description))
  }

  /** What the dialog previews is what the serverless function stores: for
      the body the dialog's submission produces, the function uses the same
      percentage and computes the same split, and it rejects the body
      exactly when the dialog would have kept the submit button disabled
      (when not loading). */
  lemma PreviewMatchesStoredSplit(
    tripId: Option<string>, amount: int, userName: string, userEmail: string,
    driverName: string, description: string, settings: Option<PaymentsHook.CommissionSettings>)
    ensures
      var body := PaymentsHook.InvokeBody(
        SubmittedInput(tripId, amount, userName, userEmail, driverName, description), settings);
      && TripPaymentFunction.RequestPercentage(body) == PaymentsHook.EffectiveCommissionPercentage(settings)
      && (TripPaymentFunction.RequestRejected(body) <==> amount == 0 || userName == "")
      && (!TripPaymentFunction.RequestRejected(body) ==>
            TripPaymentFunction.ComputeSplit(body.amount.value, TripPaymentFunction.RequestPercentage(body))
              == PreviewSplit(amount, settings))
  {
  }

  /** The dialog's form state. */
  class PaymentForm {
    var amount: int
    var userName: string
    var userEmail: string
    var driverName: string
    var description: string
    var loading: bool

    /** Prefilled values stand in for empty ones (`prefilled || default`). */
    constructor (prefilledAmount: Option<int>, prefilledUserName: Option<string>, prefilledDriverName: Option<string>)
      ensures amount == (if prefilledAmount.Some? && prefilledAmount.value != 0 then prefilledAmount.value else 0)
      ensures userName == TripPaymentFunction.OrElse(prefilledUserName, "")
      ensures driverName == TripPaymentFunction.OrElse(prefilledDriverName, "")
      ensures userEmail == "" && description == "" && !loading
    {
      amount := if prefilledAmount.Some? && prefilledAmount.value != 0 then prefilledAmount.value else 0;
      userName := TripPaymentFunction.OrElse(prefilledUserName, "");
      driverName := TripPaymentFunction.OrElse(prefilledDriverName, "");
      userEmail, description, loading := "", "", false;
    }

    function Preview(settings: Option<PaymentsHook.CommissionSettings>): (s: TripPaymentFunction.Split)
      reads this
      ensures s.commission + s.driver == amount
    {
      PreviewSplit(amount, settings)
    }

    /** The breakdown appears only for a positive amount. */
    predicate BreakdownShown()
      reads this
    {
      amount > 0
    }

    /** The submit button is disabled while loading, without an amount or
        without a user name. */
    predicate SubmitDisabled()
      reads this
    {
      loading || amount == 0 || userName == ""
    }

    /** `handleSubmit` up to the call: loading on, the input built from the
        form; the form itself is untouched. */
    method BeginSubmit(tripId: Option<string>) returns (input: PaymentsHook.PaymentInput)
      modifies this`loading
      ensures loading
      ensures input == SubmittedInput(tripId, amount, userName, userEmail, driverName, description)
    {
      loading := true;
      input := SubmittedInput(tripId, amount, userName, userEmail, driverName, description);
    }

    /** `handleSubmit` after the call: loading off; on success the dialog
        closes and the form is emptied, on failure it stays as it was. */
    method FinishSubmit(success: bool) returns (close: bool)
      modifies this
      ensures !loading && close == success
      ensures success ==> amount == 0 && userName == "" && userEmail == "" && driverName == "" && description == ""
      ensures !success ==>
        amount == old(amount) && userName == old(userName) && userEmail == old(userEmail)
        && driverName == old(driverName) && description == old(description)
    {
      loading := false;
      close := success;
      if success {
        amount, userName, userEmail, driverName, description := 0, "", "", "", "";
      }
    }
  }

  /** When not loading, the submit button is disabled exactly when the
      serverless function would reject the body the submission sends. */
  lemma SubmitGuard(f: PaymentForm, tripId: Option<string>, settings: Option<PaymentsHook.CommissionSettings>)
    requires !f.loading
    ensures f.SubmitDisabled() <==> TripPaymentFunction.RequestRejected(PaymentsHook.InvokeBody(
      SubmittedInput(tripId, f.amount, f.userName, f.userEmail, f.driverName, f.description), settings))
  {
  }

  /** A shown breakdown at a percentage in [0, 100] never shows a share
      below zero or above the amount. */
  lemma BreakdownBounds(f: PaymentForm, settings: Option<PaymentsHook.CommissionSettings>)
    requires f.BreakdownShown()
    requires 0 <= PaymentsHook.EffectiveCommissionPercentage(settings) <= 100
    ensures 0 <= f.Preview(settings).commission <= f.amount
    ensures 0 <= f.Preview(settings).driver <= f.amount
  {
  }
}
