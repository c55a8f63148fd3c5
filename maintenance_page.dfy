/** The maintenance page: the status and day filters, the calendar
    highlights and the three summary cards. */
module MaintenancePage {
  import opened Wrappers
  import Seqs
  import Calendar
  import opened MaintenanceList

  /** The status selector: "all" or one status. */
  datatype StatusFilter = AllStatuses | OnlyStatus(status: MaintStatus)

  predicate MatchesStatus(m: Maintenance, f: StatusFilter) {
    f.AllStatuses? || m.status == f.status
  }

  /** With a day selected on the calendar, only services of that day. */
  predicate MatchesDate(m: Maintenance, selectedDate: Option<Calendar.Instant>) {
    selectedDate.None? || Calendar.SameDay(m.scheduledDate, selectedDate.value)
  }

  function ShownBy(f: StatusFilter, selectedDate: Option<Calendar.Instant>): Maintenance -> bool {
    (m: Maintenance) => MatchesStatus(m, f) && MatchesDate(m, selectedDate)
  }

  function StatusBy(f: StatusFilter): Maintenance -> bool {
    (m: Maintenance) => MatchesStatus(m, f)
  }

  /** `filteredMaintenances`: a service is listed exactly when it matches
      the status filter and, if a day is selected, falls on that day. */
  function FilteredMaintenances(ms: seq<Maintenance>, f: StatusFilter, selectedDate: Option<Calendar.Instant>)
    : (r: seq<Maintenance>)
    ensures Seqs.IsSubsequence(r, ms)
    ensures forall i :: 0 <= i < |r| ==> MatchesStatus(r[i], f) && MatchesDate(r[i], selectedDate)
    ensures forall i :: 0 <= i < |ms| && MatchesStatus(ms[i], f) && MatchesDate(ms[i], selectedDate) ==> ms[i] in r
  {
    Seqs.FilterIsSubsequence(ms, ShownBy(f, selectedDate));
    Seqs.Filter(ms, ShownBy(f, selectedDate))
  }

  /** With no day selected only the status filter applies, and with "all"
      as well everything is listed. */
  lemma NoDateSelected(ms: seq<Maintenance>, f: StatusFilter)
    ensures FilteredMaintenances(ms, f, None) == Seqs.Filter(ms, StatusBy(f))
    ensures FilteredMaintenances(ms, AllStatuses, None) == ms
  {
    Seqs.FilterCongruent(ms, ShownBy(f, None), StatusBy(f));
    Seqs.FilterAll(ms, ShownBy(AllStatuses, None));
  }

  predicate IsScheduled(m: Maintenance) { m.status == Scheduled }
  predicate IsUrgentScheduled(m: Maintenance) { m.priority == Urgent && m.status == Scheduled }

  /** `scheduledDates`: the calendar highlights, one per scheduled service. */
  function ScheduledDates(ms: seq<Maintenance>): (r: seq<Calendar.Instant>)
    ensures |r| == Seqs.Count(ms, IsScheduled)
    ensures forall i :: 0 <= i < |r| ==> r[i] == Seqs.Filter(ms, IsScheduled)[i].scheduledDate
    ensures forall i :: 0 <= i < |r| ==> exists m :: m in ms && IsScheduled(m) && m.scheduledDate == r[i]
    ensures forall m :: m in ms && IsScheduled(m) ==> m.scheduledDate in r
  {
    var scheduled := Seqs.Filter(ms, IsScheduled);
    var r := seq(|scheduled|, i requires 0 <= i < |scheduled| => scheduled[i].scheduledDate);
    forall m | m in ms && IsScheduled(m)
      ensures m.scheduledDate in r
    {
      var k :| 0 <= k < |ms| && ms[k] == m;
      var j :| 0 <= j < |scheduled| && scheduled[j] == m;
      assert r[j] == m.scheduledDate;
    }
    r
  }

  /** A highlighted day lists at least one service when the scheduled
      status is chosen and that day is selected. */
  lemma HighlightedDayHasService(ms: seq<Maintenance>, i: nat)
    requires i < |ScheduledDates(ms)|
    ensures FilteredMaintenances(ms, OnlyStatus(Scheduled), Some(ScheduledDates(ms)[i])) != []
  {
    var d := ScheduledDates(ms)[i];
    var m :| m in ms && IsScheduled(m) && m.scheduledDate == d;
    assert MatchesStatus(m, OnlyStatus(Scheduled)) && MatchesDate(m, Some(d));
  }

  /** The Programados card. */
  function UpcomingCount(ms: seq<Maintenance>): nat {
    Seqs.Count(ms, IsScheduled)
  }

  /** The Urgentes card. */
  function UrgentCount(ms: seq<Maintenance>): nat {
    Seqs.Count(ms, IsUrgentScheduled)
  }

  /** Urgent scheduled services are among the scheduled ones. */
  lemma UrgentWithinUpcoming(ms: seq<Maintenance>)
    ensures UrgentCount(ms) <= UpcomingCount(ms)
    ensures UpcomingCount(ms) == |ScheduledDates(ms)|
  {
    Seqs.FilterMonotone(ms, IsUrgentScheduled, IsScheduled);
  }

  function MonthNumberBy(now: Calendar.Instant): Maintenance -> bool {
    (m: Maintenance) => m.scheduledDate.month == now.month
  }

  function InMonthBy(now: Calendar.Instant): Maintenance -> bool {
    (m: Maintenance) => m.scheduledDate.month == now.month && m.scheduledDate.year == now.year
  }

  /** The Este Mes card as written: services whose month number equals the
      current one, in any year. */
  function ThisMonthCountAsWritten(ms: seq<Maintenance>, now: Calendar.Instant): (n: nat)
    ensures n <= |ms|
  {
    Seqs.Count(ms, MonthNumberBy(now))
  }

  /** The evidently intended Este Mes card: services in the current month of
      the current year. It never counts more than the card as written. */
  function ThisMonthCount(ms: seq<Maintenance>, now: Calendar.Instant): (n: nat)
    ensures n <= ThisMonthCountAsWritten(ms, now)
  {
    Seqs.FilterMonotone(ms, InMonthBy(now), MonthNumberBy(now));
    Seqs.Count(ms, InMonthBy(now))
  }

  /** A service of the same month a year earlier is counted by the card as
      written but not by the intended one. */
  lemma ThisMonthCountsOtherYears(m: Maintenance, now: Calendar.Instant)
    requires m.scheduledDate.month == now.month && m.scheduledDate.year == now.year - 1
    ensures ThisMonthCountAsWritten([m], now) == 1
    ensures ThisMonthCount([m], now) == 0
  {
    assert Seqs.Filter([m], MonthNumberBy(now)) == [m];
    assert Seqs.Filter([m], InMonthBy(now)) == [];
  }
}
