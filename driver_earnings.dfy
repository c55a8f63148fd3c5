/** The driver earnings page: the driver list, the payment filters (driver,
    search text, date range), the earnings summary and the per-day chart. */
module DriverEarnings {
  import opened Wrappers
  import Seqs
  import Text
  import Calendar
  import opened PaymentsHook

  predicate HasTruthyDriver(p: Payment) {
    p.driverName.Some? && p.driverName.value != ""
  }

  /** `payments.filter((p) => p.driver_name).map((p) => p.driver_name)`: one
      name per payment with a truthy driver, in the payments' order. */
  function TruthyDriverNames(payments: seq<Payment>): (r: seq<string>)
    ensures |r| == Seqs.Count(payments, HasTruthyDriver)
    ensures forall i :: 0 <= i < |r| ==> Some(r[i]) == Seqs.Filter(payments, HasTruthyDriver)[i].driverName
    ensures forall n :: n in r <==>
      n != "" && exists i :: 0 <= i < |payments| && payments[i].driverName == Some(n)
  {
    var withDriver := Seqs.Filter(payments, HasTruthyDriver);
    var r := seq(|withDriver|, i requires 0 <= i < |withDriver| => withDriver[i].driverName.value);
    forall n | n in r
      ensures n != "" && exists i :: 0 <= i < |payments| && payments[i].driverName == Some(n)
    {
      var k :| 0 <= k < |r| && r[k] == n;
      var i :| 0 <= i < |payments| && payments[i] == withDriver[k];
    }
    forall i | 0 <= i < |payments| && payments[i].driverName.Some? && payments[i].driverName.value != ""
      ensures payments[i].driverName.value in r
    {
      assert HasTruthyDriver(payments[i]);
      var k :| 0 <= k < |withDriver| && withDriver[k] == payments[i];
      assert r[k] == payments[i].driverName.value;
    }
    r
  }

  /** `[...new Set(driverNames)].sort()`: the drivers offered by the selector,
      also used by the goal dialog. */
  function DriverNames(payments: seq<Payment>): (r: seq<string>)
    ensures Text.StrictlySorted(r)
    ensures forall i, j :: 0 <= i < j < |r| ==> r[i] != r[j]
    ensures forall n :: n in r <==>
      n != "" && exists i :: 0 <= i < |payments| && payments[i].driverName == Some(n)
  {
    var r := Text.SortedDistinct(TruthyDriverNames(payments));
    Text.StrictlySortedDistinct(r);
    r
  }

  /** The page's filter controls; `now` and `threeMonthsAgo` (the time of
      `subMonths(now, 3)` in milliseconds) are read from the clock. */
  datatype PaymentFilter = PaymentFilter(
    selectedDriver: string,
    searchTerm: string,
    dateRange: string,
    now: Calendar.Instant,
    threeMonthsAgo: int)

  predicate DriverMatches(p: Payment, selectedDriver: string) {
    selectedDriver == "all" || p.driverName == Some(selectedDriver)
  }

  /** A non-empty search must occur, ignoring case, in the user name or in
      the description; a payment without description matches only by name. */
  predicate SearchMatches(p: Payment, searchTerm: string) {
    if searchTerm == "" then true
    else
      var search := Text.ToLower(searchTerm);
      Text.Contains(Text.ToLower(p.userName), search)
      || (p.description.Some? && Text.Contains(Text.ToLower(p.description.value), search))
  }

  /** "month" keeps the calendar month of `now`, "3months" drops payments
      before `threeMonthsAgo`, and any other range keeps everything. */
  predicate InDateRange(p: Payment, f: PaymentFilter) {
    if f.dateRange == "all" then true
    else if f.dateRange == "month" then Calendar.InMonthOf(p.createdAt, f.now)
    else if f.dateRange == "3months" then p.createdAt.ms >= f.threeMonthsAgo
    else true
  }

  predicate Shown(p: Payment, f: PaymentFilter) {
    DriverMatches(p, f.selectedDriver) && SearchMatches(p, f.searchTerm) && InDateRange(p, f)
  }

  function ShownBy(f: PaymentFilter): Payment -> bool {
    (p: Payment) => Shown(p, f)
  }

  /** `filteredPayments`: the payments passing all three filters, in order. */
  function FilteredPayments(payments: seq<Payment>, f: PaymentFilter): (r: seq<Payment>)
    ensures Seqs.IsSubsequence(r, payments)
    ensures forall i :: 0 <= i < |r| ==> Shown(r[i], f)
    ensures forall i :: 0 <= i < |payments| && Shown(payments[i], f) ==> payments[i] in r
  {
    Seqs.FilterIsSubsequence(payments, ShownBy(f));
    Seqs.Filter(payments, ShownBy(f))
  }

  /** The initial controls keep every payment. */
  lemma NoFilterKeepsAll(payments: seq<Payment>, f: PaymentFilter)
    requires f.selectedDriver == "all" && f.searchTerm == "" && f.dateRange == "all"
    ensures FilteredPayments(payments, f) == payments
  {
    Seqs.FilterAll(payments, ShownBy(f));
  }

  /** What each control guarantees of the payments it lets through. */
  lemma FilterGuarantees(payments: seq<Payment>, f: PaymentFilter)
    ensures f.selectedDriver != "all" ==>
      forall i :: 0 <= i < |FilteredPayments(payments, f)| ==>
        FilteredPayments(payments, f)[i].driverName == Some(f.selectedDriver)
    ensures f.dateRange == "month" ==>
      forall i :: 0 <= i < |FilteredPayments(payments, f)| ==>
        Calendar.InMonthOf(FilteredPayments(payments, f)[i].createdAt, f.now)
    ensures f.dateRange == "3months" ==>
      forall i :: 0 <= i < |FilteredPayments(payments, f)| ==>
        FilteredPayments(payments, f)[i].createdAt.ms >= f.threeMonthsAgo
  {
  }

  /** The search ignores the case of the typed term, and a payment is found
      by its own (non-empty) user name. */
  lemma {:induction false} SearchIgnoresCase(p: Payment, searchTerm: string)
    ensures SearchMatches(p, Text.ToUpper(searchTerm)) == SearchMatches(p, searchTerm)
    ensures SearchMatches(p, Text.ToLower(searchTerm)) == SearchMatches(p, searchTerm)
    ensures SearchMatches(p, p.userName)
  {
    Text.LowerIdempotent(searchTerm);
    Text.LowerIdempotent(p.userName);
    if p.userName != "" {
      var name := Text.ToLower(p.userName);
      assert name[0..|name|] == name;
      Text.ContainsAt(name, name, 0);
    }
  }

  datatype EarningsStats = EarningsStats(
    totalEarnings: int,
    pendingEarnings: int,
    totalTrips: nat,
    averagePerTrip: real,
    thisMonthEarnings: int,
    lastMonthEarnings: int,
    monthlyChange: real)

  function ThisMonthBy(now: Calendar.Instant): Payment -> bool {
    (p: Payment) => Calendar.OnOrAfterStartOfMonth(p.createdAt, now)
  }

  function LastMonthBy(now: Calendar.Instant): Payment -> bool {
    (p: Payment) => Calendar.InPreviousMonthOf(p.createdAt, now)
  }

  /** `totalTrips > 0 ? totalEarnings / totalTrips : 0`. */
  function AveragePerTrip(total: int, trips: nat): (a: real)
    ensures trips == 0 ==> a == 0.0
    ensures trips > 0 ==> a * trips as real == total as real
  {
    if trips > 0 then total as real / trips as real else 0.0
  }

  /** The percentage change from last month to this month, 0 when last month
      earned nothing. */
  function MonthlyChange(thisMonth: int, lastMonth: int): (c: real)
    ensures lastMonth <= 0 ==> c == 0.0
    ensures lastMonth > 0 ==> c * lastMonth as real == (thisMonth - lastMonth) as real * 100.0
  {
    if lastMonth > 0 then
      var q := (thisMonth - lastMonth) as real / lastMonth as real;
      assert q * lastMonth as real == (thisMonth - lastMonth) as real;
      q * 100.0
    else 0.0
  }

  /** `stats`: driver earnings of succeeded and pending payments, the trip
      count, the average per trip, and this month against last month. */
  function GetEarningsStats(filtered: seq<Payment>, now: Calendar.Instant): (s: EarningsStats)
    ensures s.totalTrips == Seqs.Count(filtered, IsSucceeded)
    ensures s.averagePerTrip == AveragePerTrip(s.totalEarnings, s.totalTrips)
    ensures s.monthlyChange == MonthlyChange(s.thisMonthEarnings, s.lastMonthEarnings)
  {
    var completed := Seqs.Filter(filtered, IsSucceeded);
    var pending := Seqs.Filter(filtered, IsPending);
    var totalEarnings := Seqs.Sum(completed, DriverAmountOf);
    var totalTrips := |completed|;
    var thisMonth := Seqs.Sum(Seqs.Filter(completed, ThisMonthBy(now)), DriverAmountOf);
    var lastMonth := Seqs.Sum(Seqs.Filter(completed, LastMonthBy(now)), DriverAmountOf);
    var average := AveragePerTrip(totalEarnings, totalTrips);
    var change := MonthlyChange(thisMonth, lastMonth);
    EarningsStats(
      totalEarnings, Seqs.Sum(pending, DriverAmountOf), totalTrips, average,
      thisMonth, lastMonth, change)
  }

  /** The page's totals agree with the payments hook's summary of the same
      list: earnings are the drivers' share of succeeded payments. */
  lemma EarningsMatchPaymentStats(filtered: seq<Payment>, now: Calendar.Instant)
    ensures GetEarningsStats(filtered, now).totalEarnings == GetPaymentStats(filtered).totalDriverAmount
    ensures GetEarningsStats(filtered, now).totalTrips == GetPaymentStats(filtered).completedPayments
  {
  }

  /** With no payments every sum and count is 0, and so are the average and
      the change. */
  lemma EarningsStatsOfEmpty(now: Calendar.Instant)
    ensures GetEarningsStats([], now) == EarningsStats(0, 0, 0, 0.0, 0, 0, 0.0)
  {
  }

  /** One more payment: its driver amount joins the total when it succeeded,
      the pending sum when it is pending, and the month sums when it
      succeeded within that month; the trip count follows the total. */
  lemma EarningsStatsAppend(filtered: seq<Payment>, p: Payment, now: Calendar.Instant)
    ensures GetEarningsStats(filtered + [p], now).totalEarnings
         == GetEarningsStats(filtered, now).totalEarnings + (if IsSucceeded(p) then p.driverAmount else 0)
    ensures GetEarningsStats(filtered + [p], now).pendingEarnings
         == GetEarningsStats(filtered, now).pendingEarnings + (if IsPending(p) then p.driverAmount else 0)
    ensures GetEarningsStats(filtered + [p], now).totalTrips
         == GetEarningsStats(filtered, now).totalTrips + (if IsSucceeded(p) then 1 else 0)
    ensures GetEarningsStats(filtered + [p], now).thisMonthEarnings
         == GetEarningsStats(filtered, now).thisMonthEarnings
            + (if IsSucceeded(p) && Calendar.OnOrAfterStartOfMonth(p.createdAt, now) then p.driverAmount else 0)
    ensures GetEarningsStats(filtered + [p], now).lastMonthEarnings
         == GetEarningsStats(filtered, now).lastMonthEarnings
            + (if IsSucceeded(p) && Calendar.InPreviousMonthOf(p.createdAt, now) then p.driverAmount else 0)
  {
    var completed := Seqs.Filter(filtered, IsSucceeded);
    Seqs.FilterSnoc(filtered, p, IsSucceeded);
    Seqs.SumFilterSnoc(filtered, p, IsSucceeded, DriverAmountOf);
    Seqs.SumFilterSnoc(filtered, p, IsPending, DriverAmountOf);
    if IsSucceeded(p) {
      Seqs.SumFilterSnoc(completed, p, ThisMonthBy(now), DriverAmountOf);
      Seqs.SumFilterSnoc(completed, p, LastMonthBy(now), DriverAmountOf);
    } else {
      assert Seqs.Filter(filtered + [p], IsSucceeded) == completed;
    }
  }

  /** With non-negative driver amounts, this month and last month together
      never exceed the total. */
  lemma MonthsWithinTotal(filtered: seq<Payment>, now: Calendar.Instant)
    requires forall i :: 0 <= i < |filtered| ==> filtered[i].driverAmount >= 0
    ensures GetEarningsStats(filtered, now).thisMonthEarnings + GetEarningsStats(filtered, now).lastMonthEarnings
         <= GetEarningsStats(filtered, now).totalEarnings
  {
    var completed := Seqs.Filter(filtered, IsSucceeded);
    forall x ensures !(ThisMonthBy(now)(x) && LastMonthBy(now)(x)) {
      Calendar.MonthWindows(x.createdAt, now);
    }
    Seqs.SumFilterBound2(completed, ThisMonthBy(now), LastMonthBy(now), DriverAmountOf);
  }

  /** Under the "month" range every shown payment is from this month, so
      this month's earnings are the total, last month's are 0 and the change
      shown is 0. */
  lemma MonthRangeHasNoChange(payments: seq<Payment>, f: PaymentFilter)
    requires f.dateRange == "month"
    ensures GetEarningsStats(FilteredPayments(payments, f), f.now).thisMonthEarnings
         == GetEarningsStats(FilteredPayments(payments, f), f.now).totalEarnings
    ensures GetEarningsStats(FilteredPayments(payments, f), f.now).lastMonthEarnings == 0
    ensures GetEarningsStats(FilteredPayments(payments, f), f.now).monthlyChange == 0.0
  {
    var filtered := FilteredPayments(payments, f);
    var completed := Seqs.Filter(filtered, IsSucceeded);
    forall i | 0 <= i < |completed| ensures ThisMonthBy(f.now)(completed[i]) {
      Calendar.MonthWindows(completed[i].createdAt, f.now);
    }
    Seqs.FilterAll(completed, ThisMonthBy(f.now));
    forall i | 0 <= i < |completed| ensures !LastMonthBy(f.now)(completed[i]) {
      Calendar.MonthWindows(completed[i].createdAt, f.now);
    }
    Seqs.FilterNone(completed, LastMonthBy(f.now));
  }

  /** A bar of the chart: a day label and the driver earnings of that day. */
  datatype ChartPoint = ChartPoint(date: Calendar.DayLabel, amount: int)

  function PointAmount(c: ChartPoint): int { c.amount }

  function DayOf(p: Payment): Calendar.DayLabel {
    Calendar.LabelOf(p.createdAt)
  }

  /** The keys of `grouped` in the order a JavaScript object keeps them: by
      first insertion. */
  function DayKeys(ps: seq<Payment>): seq<Calendar.DayLabel>
    decreases |ps|
  {
    if ps == [] then []
    else
      var keys := DayKeys(ps[..|ps| - 1]);
      if DayOf(ps[|ps| - 1]) in keys then keys else keys + [DayOf(ps[|ps| - 1])]
  }

  /** `grouped[day]`: the driver earnings of the payments labelled `day`. */
  function DayTotal(ps: seq<Payment>, day: Calendar.DayLabel): int
    decreases |ps|
  {
    if ps == [] then 0
    else DayTotal(ps[..|ps| - 1], day) + (if DayOf(ps[|ps| - 1]) == day then ps[|ps| - 1].driverAmount else 0)
  }

  /** `Object.entries(grouped).map(...)` for the given keys. */
  function EntriesOf(keys: seq<Calendar.DayLabel>, ps: seq<Payment>): (r: seq<ChartPoint>)
    ensures |r| == |keys|
    ensures forall i :: 0 <= i < |keys| ==> r[i] == ChartPoint(keys[i], DayTotal(ps, keys[i]))
  {
    if keys == [] then [] else [ChartPoint(keys[0], DayTotal(ps, keys[0]))] + EntriesOf(keys[1..], ps)
  }

  function Entries(ps: seq<Payment>): seq<ChartPoint> {
    EntriesOf(DayKeys(ps), ps)
  }

  lemma {:induction false} DayKeysDistinct(ps: seq<Payment>)
    ensures forall i, j :: 0 <= i < j < |DayKeys(ps)| ==> DayKeys(ps)[i] != DayKeys(ps)[j]
    decreases |ps|
  {
    if ps != [] {
      DayKeysDistinct(ps[..|ps| - 1]);
    }
  }

  /** Every payment's day is a key, and every key is some payment's day. */
  lemma {:induction false} DayKeysCover(ps: seq<Payment>)
    ensures forall i :: 0 <= i < |ps| ==> DayOf(ps[i]) in DayKeys(ps)
    ensures forall k :: k in DayKeys(ps) ==> exists i :: 0 <= i < |ps| && DayOf(ps[i]) == k
    decreases |ps|
  {
    if ps != [] {
      var init := ps[..|ps| - 1];
      DayKeysCover(init);
      assert forall i :: 0 <= i < |init| ==> init[i] == ps[i];
    }
  }

  /** The first key is the day of the first payment. */
  lemma {:induction false} DayKeysFirst(ps: seq<Payment>)
    requires ps != []
    ensures DayKeys(ps) != [] && DayKeys(ps)[0] == DayOf(ps[0])
    decreases |ps|
  {
    if |ps| > 1 {
      var init := ps[..|ps| - 1];
      DayKeysFirst(init);
      assert init[0] == ps[0];
    }
  }

  lemma {:induction false} DayTotalAbsent(ps: seq<Payment>, day: Calendar.DayLabel)
    requires day !in DayKeys(ps)
    ensures DayTotal(ps, day) == 0
    decreases |ps|
  {
    if ps != [] {
      DayTotalAbsent(ps[..|ps| - 1], day);
    }
  }

  /** Appending one payment adds its amount to the entry of its day when that
      day is among the (distinct) keys, and changes no other entry. */
  lemma {:induction false} EntriesStep(keys: seq<Calendar.DayLabel>, ps: seq<Payment>, p: Payment)
    requires forall i, j :: 0 <= i < j < |keys| ==> keys[i] != keys[j]
    ensures Seqs.Sum(EntriesOf(keys, ps + [p]), PointAmount)
         == Seqs.Sum(EntriesOf(keys, ps), PointAmount) + (if DayOf(p) in keys then p.driverAmount else 0)
  {
    if keys != [] {
      assert (ps + [p])[..|ps + [p]| - 1] == ps;
      EntriesStep(keys[1..], ps, p);
      if keys[0] == DayOf(p) {
        assert DayOf(p) !in keys[1..];
      }
    }
  }

  lemma {:induction false} EntriesSnoc(keys: seq<Calendar.DayLabel>, k: Calendar.DayLabel, ps: seq<Payment>)
    ensures Seqs.Sum(EntriesOf(keys + [k], ps), PointAmount)
         == Seqs.Sum(EntriesOf(keys, ps), PointAmount) + DayTotal(ps, k)
  {
    if keys == [] {
      assert keys + [k] == [k];
    } else {
      assert (keys + [k])[1..] == keys[1..] + [k];
      EntriesSnoc(keys[1..], k, ps);
    }
  }

  /** Before truncation, the day sums add up to the sum over the payments. */
  lemma {:induction false} EntriesSum(ps: seq<Payment>)
    ensures Seqs.Sum(Entries(ps), PointAmount) == Seqs.Sum(ps, DriverAmountOf)
    decreases |ps|
  {
    if ps != [] {
      var init := ps[..|ps| - 1];
      var p := ps[|ps| - 1];
      assert ps == init + [p];
      var keys := DayKeys(init);
      EntriesSum(init);
      DayKeysDistinct(init);
      EntriesStep(keys, init, p);
      Seqs.SumAppend(init, [p], DriverAmountOf);
      if DayOf(p) !in keys {
        EntriesSnoc(keys, DayOf(p), ps);
        DayTotalAbsent(init, DayOf(p));
      }
    }
  }

  /** The chart's days are distinct, and together they carry the page's
      total earnings before the window is cut. */
  lemma ChartTotals(filtered: seq<Payment>, now: Calendar.Instant)
    ensures Seqs.Sum(Entries(Seqs.Filter(filtered, IsSucceeded)), PointAmount)
         == GetEarningsStats(filtered, now).totalEarnings
    ensures forall i, j :: 0 <= i < j < |Entries(Seqs.Filter(filtered, IsSucceeded))| ==>
      Entries(Seqs.Filter(filtered, IsSucceeded))[i].date != Entries(Seqs.Filter(filtered, IsSucceeded))[j].date
  {
    var completed := Seqs.Filter(filtered, IsSucceeded);
    EntriesSum(completed);
    DayKeysDistinct(completed);
  }

  /** The `grouped` dictionary filled by `forEach` over the succeeded
      payments: a map together with its keys in insertion order. Each day
      seen is a key, listed once, and holds the sum of that day's driver
      amounts. */
  method GroupByDay(completed: seq<Payment>) returns (grouped: map<Calendar.DayLabel, int>, order: seq<Calendar.DayLabel>)
    ensures order == DayKeys(completed)
    ensures forall k :: k in grouped <==> k in order
    ensures forall k :: k in grouped ==> grouped[k] == DayTotal(completed, k)
  {
    grouped, order := map[], [];
    var i := 0;
    while i < |completed|
      invariant 0 <= i <= |completed|
      invariant order == DayKeys(completed[..i])
      invariant forall k :: k in grouped <==> k in order
      invariant forall k :: k in grouped ==> grouped[k] == DayTotal(completed[..i], k)
    {
      var payment := completed[i];
      var day := DayOf(payment);
      assert completed[..i + 1][..i] == completed[..i];
      assert completed[..i + 1][i] == payment;
      if day !in grouped {
        DayTotalAbsent(completed[..i], day);
        order := order + [day];
      }
      var previous := if day in grouped then grouped[day] else 0;
      grouped := grouped[day := previous + payment.driverAmount];
      i := i + 1;
    }
    assert completed[..i] == completed;
  }

  /** The chart: the dictionary's entries in key order, cut to the last 14
      with `slice(-14)`. */
  method ChartData(filtered: seq<Payment>) returns (points: seq<ChartPoint>)
    ensures points == ChartWindowAsWritten(Entries(Seqs.Filter(filtered, IsSucceeded)))
  {
    var completed := Seqs.Filter(filtered, IsSucceeded);
    var grouped, order := GroupByDay(completed);
    var entries: seq<ChartPoint> := [];
    var j := 0;
    while j < |order|
      invariant 0 <= j <= |order|
      invariant |entries| == j
      invariant forall m :: 0 <= m < j ==> entries[m] == ChartPoint(order[m], DayTotal(completed, order[m]))
    {
      assert order[j] in grouped;
      entries := entries + [ChartPoint(order[j], grouped[order[j]])];
      j := j + 1;
    }
    assert entries == Entries(completed);
    points := Seqs.TakeLast(entries, 14);
  }

  /** `slice(-14)`: the last 14 entries. */
  function ChartWindowAsWritten(entries: seq<ChartPoint>): (r: seq<ChartPoint>)
    ensures |r| == if |entries| < 14 then |entries| else 14
    ensures r == entries[|entries| - |r|..]
  {
    Seqs.TakeLast(entries, 14)
  }

  /** The evidently intended window: the 14 most recent days. Payments come
      newest first, so the entries start with the newest day. */
  function RecentChartWindow(entries: seq<ChartPoint>): (r: seq<ChartPoint>)
    ensures |r| == if |entries| < 14 then |entries| else 14
    ensures r == entries[..|r|]
  {
    Seqs.Take(entries, 14)
  }

  /** With payments newest first and more than 14 distinct days, the chart
      as written leaves out the newest day, while the intended window
      starts with it. */
  lemma ChartWindowDropsNewestDay(completed: seq<Payment>)
    requires completed != []
    requires forall i :: 0 <= i < |completed| ==> completed[i].createdAt.ms <= completed[0].createdAt.ms
    requires |DayKeys(completed)| > 14
    ensures forall i :: 0 <= i < |ChartWindowAsWritten(Entries(completed))| ==>
      ChartWindowAsWritten(Entries(completed))[i].date != DayOf(completed[0])
    ensures RecentChartWindow(Entries(completed))[0].date == DayOf(completed[0])
  {
    var keys := DayKeys(completed);
    var e := Entries(completed);
    DayKeysFirst(completed);
    DayKeysDistinct(completed);
    var w := ChartWindowAsWritten(e);
    forall i | 0 <= i < |w| ensures w[i].date != DayOf(completed[0]) {
      assert w[i] == e[|e| - 14 + i];
      assert keys[0] != keys[|e| - 14 + i];
    }
  }
}
