/** The payments hook: the fetched payment list and commission settings,
    the call that starts a payment through the serverless function, and the
    summary figures of the payments page. */
module PaymentsHook {
  import opened Wrappers
  import Seqs
  import Calendar
  import TripPaymentFunction

  /** A row of the payments table. */
  datatype Payment = Payment(
    id: string,
    tripId: Option<string>,
    amount: int,
    commissionAmount: int,
    driverAmount: int,
    status: string,
    userName: string,
    userEmail: Option<string>,
    driverName: Option<string>,
    description: Option<string>,
    createdAt: Calendar.Instant)

  datatype CommissionSettings = CommissionSettings(
    id: string, commissionPercentage: int, minCommission: int, isActive: bool)

  predicate IsSucceeded(p: Payment) { p.status == "succeeded" }
  predicate IsPending(p: Payment) { p.status == "pending" }
  function AmountOf(p: Payment): int { p.amount }
  function CommissionOf(p: Payment): int { p.commissionAmount }
  function DriverAmountOf(p: Payment): int { p.driverAmount }

  /** The split invariant of a stored payment. */
  predicate Reconciles(p: Payment) { p.commissionAmount + p.driverAmount == p.amount }

  /** `commissionSettings?.commission_percentage || 15`: the configured
      percentage, or 15 when there are no settings or they say 0. The same
      expression feeds the payment dialog's preview and the payments page
      header. */
  function EffectiveCommissionPercentage(settings: Option<CommissionSettings>): (p: int)
    ensures p != 0
    ensures settings.Some? && settings.value.commissionPercentage != 0 ==> p == settings.value.commissionPercentage
    ensures settings.None? || settings.value.commissionPercentage == 0 ==> p == TripPaymentFunction.DefaultCommissionPercentage
  {
    if settings.Some? && settings.value.commissionPercentage != 0 then settings.value.commissionPercentage
    else TripPaymentFunction.DefaultCommissionPercentage
  }

  /** The argument of `createPayment`. */
  datatype PaymentInput = PaymentInput(
    tripId: Option<string>,
    amount: int,
    userName: string,
    userEmail: Option<string>,
    driverName: Option<string>,
    description: Option<string>)

  /** The body sent to the serverless function: the input's fields and the
      effective percentage, so the function's own default never applies. */
  function InvokeBody(input: PaymentInput, settings: Option<CommissionSettings>): (b: TripPaymentFunction.PaymentRequest)
    ensures b.commissionPercentage == Some(EffectiveCommissionPercentage(settings))
    ensures TripPaymentFunction.RequestPercentage(b) == EffectiveCommissionPercentage(settings)
    ensures b.amount == Some(input.amount) && b.userName == Some(input.userName)
    ensures b.tripId == input.tripId && b.userEmail == input.userEmail
    ensures b.driverName == input.driverName && b.description == input.description
  {
    TripPaymentFunction.PaymentRequest(
      input.tripId, Some(input.amount), Some(input.userName), input.userEmail,
      input.driverName, input.description, Some(EffectiveCommissionPercentage(settings)))
  }

  /** What `functions.invoke` delivers: an error, or the decoded data, whose
      `url` may be missing. */
  datatype InvokeResult = InvokeError(message: string) | InvokeData(url: Option<string>)

  /** `createPayment` reports success only when the answer carries a url;
      an error or a missing url is a failure. */
  function CreatePaymentSucceeded(r: InvokeResult): (ok: bool)
    ensures ok <==> r.InvokeData? && TripPaymentFunction.Truthy(r.url)
  {
    match r
    case InvokeError(_) => false
    case InvokeData(url) => TripPaymentFunction.Truthy(url)
  }

  datatype PaymentStats = PaymentStats(
    totalAmount: int,
    totalCommission: int,
    totalDriverAmount: int,
    pendingPayments: nat,
    completedPayments: nat,
    totalPayments: nat)

  /** `getPaymentStats`: money totals over succeeded payments only, counts of
      pending and succeeded payments, and the list length. */
  function GetPaymentStats(payments: seq<Payment>): (s: PaymentStats)
    ensures s.totalPayments == |payments|
    ensures s.pendingPayments + s.completedPayments <= s.totalPayments
  {
    var succeeded := Seqs.Filter(payments, IsSucceeded);
    Seqs.FilterCountBound2(payments, IsPending, IsSucceeded);
    PaymentStats(
      Seqs.Sum(succeeded, AmountOf),
      Seqs.Sum(succeeded, CommissionOf),
      Seqs.Sum(succeeded, DriverAmountOf),
      Seqs.Count(payments, IsPending),
      Seqs.Count(payments, IsSucceeded),
      |payments|)
  }

  lemma StatsOfEmpty()
    ensures GetPaymentStats([]) == PaymentStats(0, 0, 0, 0, 0, 0)
  {
  }

  /** When every record reconciles, so do the totals. */
  lemma StatsReconcile(payments: seq<Payment>)
    requires forall i :: 0 <= i < |payments| ==> Reconciles(payments[i])
    ensures GetPaymentStats(payments).totalCommission + GetPaymentStats(payments).totalDriverAmount
         == GetPaymentStats(payments).totalAmount
  {
    var succeeded := Seqs.Filter(payments, IsSucceeded);
    Seqs.SumAdditive(succeeded, CommissionOf, DriverAmountOf, AmountOf);
  }

  /** A payment that has not succeeded moves no money total, only counts. */
  lemma StatsAppendUnsucceeded(payments: seq<Payment>, p: Payment)
    requires !IsSucceeded(p)
    ensures GetPaymentStats(payments + [p]).totalAmount == GetPaymentStats(payments).totalAmount
    ensures GetPaymentStats(payments + [p]).totalCommission == GetPaymentStats(payments).totalCommission
    ensures GetPaymentStats(payments + [p]).totalDriverAmount == GetPaymentStats(payments).totalDriverAmount
    ensures GetPaymentStats(payments + [p]).completedPayments == GetPaymentStats(payments).completedPayments
  {
    Seqs.FilterAppend(payments, [p], IsSucceeded);
    assert Seqs.Filter(payments + [p], IsSucceeded) == Seqs.Filter(payments, IsSucceeded) + [];
    assert Seqs.Filter(payments, IsSucceeded) + [] == Seqs.Filter(payments, IsSucceeded);
  }

  /** A succeeded payment adds its amounts to the totals. */
  lemma StatsAppendSucceeded(payments: seq<Payment>, p: Payment)
    requires IsSucceeded(p)
    ensures GetPaymentStats(payments + [p]).totalAmount == GetPaymentStats(payments).totalAmount + p.amount
    ensures GetPaymentStats(payments + [p]).totalCommission == GetPaymentStats(payments).totalCommission + p.commissionAmount
    ensures GetPaymentStats(payments + [p]).totalDriverAmount == GetPaymentStats(payments).totalDriverAmount + p.driverAmount
    ensures GetPaymentStats(payments + [p]).completedPayments == GetPaymentStats(payments).completedPayments + 1
  {
    var s := Seqs.Filter(payments, IsSucceeded);
    Seqs.FilterAppend(payments, [p], IsSucceeded);
    assert Seqs.Filter([p], IsSucceeded) == [p];
    Seqs.SumAppend(s, [p], AmountOf);
    Seqs.SumAppend(s, [p], CommissionOf);
    Seqs.SumAppend(s, [p], DriverAmountOf);
  }

  /** One more payment of any status: the list count grows by one, and the
      pending and succeeded counts grow by one exactly when it has that
      status. */
  lemma StatsAppendCounts(payments: seq<Payment>, p: Payment)
    ensures GetPaymentStats(payments + [p]).totalPayments == GetPaymentStats(payments).totalPayments + 1
    ensures GetPaymentStats(payments + [p]).pendingPayments
         == GetPaymentStats(payments).pendingPayments + (if IsPending(p) then 1 else 0)
    ensures GetPaymentStats(payments + [p]).completedPayments
         == GetPaymentStats(payments).completedPayments + (if IsSucceeded(p) then 1 else 0)
  {
    Seqs.FilterSnoc(payments, p, IsPending);
    Seqs.FilterSnoc(payments, p, IsSucceeded);
  }

  /** The hook's state: the payment list, the active commission settings and
      the loading flag, as the fetches leave them. */
  class PaymentsStore {
    var payments: seq<Payment>
    var commissionSettings: Option<CommissionSettings>
    var loading: bool

    constructor ()
      ensures payments == [] && commissionSettings.None? && loading
    {
      payments, commissionSettings, loading := [], None, true;
    }

    /** `fetchPayments` starts by raising the loading flag. */
    method BeginFetch()
      modifies this`loading
      ensures loading
    {
      loading := true;
    }

    /** `fetchPayments` ends: on success the list is replaced by the rows
        (newest first, as the query orders them); on error it is kept.
        Loading is off afterwards either way. */
    method PaymentsFetched(result: Result<seq<Payment>, string>)
      modifies this`payments, this`loading
      ensures !loading
      ensures result.Ok? ==> payments == result.value
      ensures result.Err? ==> payments == old(payments)
    {
      if result.Ok? {
        payments := result.value;
      }
      loading := false;
    }

    /** `fetchCommissionSettings`: only an active row that was found
        replaces the settings; an error or no row keeps them. */
    method SettingsFetched(result: Result<Option<CommissionSettings>, string>)
      modifies this`commissionSettings
      ensures result.Ok? && result.value.Some? ==> commissionSettings == result.value
      ensures !(result.Ok? && result.value.Some?) ==> commissionSettings == old(commissionSettings)
    {
      if result.Ok? && result.value.Some? {
        commissionSettings := result.value;
      }
    }

    /** `getPaymentStats` on the current list. */
    function Stats(): (s: PaymentStats)
      reads this
      ensures s == GetPaymentStats(payments)
      ensures s.totalPayments == |payments|
    {
      GetPaymentStats(payments)
    }
  }
}
