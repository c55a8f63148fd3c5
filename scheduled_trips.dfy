/** The scheduled trips page: the shared/scheduled filter, the status tabs,
    the summary cards and the actions offered on each trip. */
module ScheduledTrips {
  import opened Wrappers
  import Seqs

  /** A row of the scheduled trips table (the fields the page uses). */
  datatype ScheduledTrip = ScheduledTrip(
    id: string,
    userName: string,
    originAddress: string,
    destinationAddress: string,
    scheduledDate: string,
    passengersCount: int,
    isShared: bool,
    estimatedPrice: Option<int>,
    status: string,
    driverName: Option<string>)

  /** The filter selector. */
  datatype TripFilter = All | Scheduled | Shared

  predicate IsSharedTrip(t: ScheduledTrip) { t.isShared }

  function PassesBy(f: TripFilter): ScheduledTrip -> bool {
    (t: ScheduledTrip) => match f
      case Shared => t.isShared
      case Scheduled => !t.isShared
      case All => true
  }

  /** `filteredTrips`. */
  function FilteredTrips(trips: seq<ScheduledTrip>, f: TripFilter): (r: seq<ScheduledTrip>)
    ensures Seqs.IsSubsequence(r, trips)
    ensures f == Shared ==> forall i :: 0 <= i < |r| ==> r[i].isShared
    ensures f == Scheduled ==> forall i :: 0 <= i < |r| ==> !r[i].isShared
    ensures forall i :: 0 <= i < |trips| && PassesBy(f)(trips[i]) ==> trips[i] in r
  {
    Seqs.FilterIsSubsequence(trips, PassesBy(f));
    Seqs.Filter(trips, PassesBy(f))
  }

  /** "all" keeps every trip, and "shared" and "scheduled" split the trips
      between them with none left over. */
  lemma FilterPartition(trips: seq<ScheduledTrip>)
    ensures FilteredTrips(trips, All) == trips
    ensures |FilteredTrips(trips, Shared)| + |FilteredTrips(trips, Scheduled)| == |trips|
    ensures forall i :: 0 <= i < |FilteredTrips(trips, Shared)| ==>
      FilteredTrips(trips, Shared)[i] !in FilteredTrips(trips, Scheduled)
  {
    Seqs.FilterAll(trips, PassesBy(All));
    Seqs.FilterComplement(trips, PassesBy(Shared), PassesBy(Scheduled));
    Seqs.FilterDisjoint(trips, PassesBy(Shared), PassesBy(Scheduled));
  }

  predicate IsPendingTrip(t: ScheduledTrip) { t.status == "pending" }
  predicate IsConfirmedTrip(t: ScheduledTrip) { t.status == "confirmed" }
  predicate IsCompletedTrip(t: ScheduledTrip) { t.status == "completed" }

  function PendingTrips(filtered: seq<ScheduledTrip>): seq<ScheduledTrip> {
    Seqs.Filter(filtered, IsPendingTrip)
  }

  function ConfirmedTrips(filtered: seq<ScheduledTrip>): seq<ScheduledTrip> {
    Seqs.Filter(filtered, IsConfirmedTrip)
  }

  function CompletedTrips(filtered: seq<ScheduledTrip>): seq<ScheduledTrip> {
    Seqs.Filter(filtered, IsCompletedTrip)
  }

  /** The three tabs are order-preserving, share no trip, together hold no
      more trips than the filtered list, and show no trip in progress or
      cancelled. */
  lemma TabsPartition(filtered: seq<ScheduledTrip>)
    ensures Seqs.IsSubsequence(PendingTrips(filtered), filtered)
    ensures Seqs.IsSubsequence(ConfirmedTrips(filtered), filtered)
    ensures Seqs.IsSubsequence(CompletedTrips(filtered), filtered)
    ensures forall i :: 0 <= i < |PendingTrips(filtered)| ==>
      PendingTrips(filtered)[i] !in ConfirmedTrips(filtered) && PendingTrips(filtered)[i] !in CompletedTrips(filtered)
    ensures forall i :: 0 <= i < |ConfirmedTrips(filtered)| ==> ConfirmedTrips(filtered)[i] !in CompletedTrips(filtered)
    ensures |PendingTrips(filtered)| + |ConfirmedTrips(filtered)| + |CompletedTrips(filtered)| <= |filtered|
    ensures forall t :: t in filtered && t.status in {"in_progress", "cancelled"} ==>
      t !in PendingTrips(filtered) && t !in ConfirmedTrips(filtered) && t !in CompletedTrips(filtered)
  {
    Seqs.FilterIsSubsequence(filtered, IsPendingTrip);
    Seqs.FilterIsSubsequence(filtered, IsConfirmedTrip);
    Seqs.FilterIsSubsequence(filtered, IsCompletedTrip);
    Seqs.FilterDisjoint(filtered, IsPendingTrip, IsConfirmedTrip);
    Seqs.FilterDisjoint(filtered, IsPendingTrip, IsCompletedTrip);
    Seqs.FilterDisjoint(filtered, IsConfirmedTrip, IsCompletedTrip);
    Seqs.FilterCountBound3(filtered, IsPendingTrip, IsConfirmedTrip, IsCompletedTrip);
  }

  /** The Compartidos card: shared trips in the whole list, whatever the
      filter. */
  function SharedCount(trips: seq<ScheduledTrip>): (n: nat)
    ensures n <= |trips|
    ensures n == |FilteredTrips(trips, Shared)|
  {
    Seqs.FilterCongruent(trips, IsSharedTrip, PassesBy(Shared));
    Seqs.Count(trips, IsSharedTrip)
  }

  /** Under any filter the card counts at least the shared trips shown. */
  lemma SharedCardBound(trips: seq<ScheduledTrip>, f: TripFilter)
    ensures Seqs.Count(FilteredTrips(trips, f), IsSharedTrip) <= SharedCount(trips)
  {
    var p := PassesBy(f);
    var both := (t: ScheduledTrip) => p(t) && t.isShared;
    Seqs.FilterFilter(trips, p, IsSharedTrip, both);
    Seqs.FilterMonotone(trips, both, IsSharedTrip);
  }

  /** The buttons of a trip card. */
  datatype TripAction = Join | Confirm | Cancel

  /** Join for a shared pending trip, then Confirm and Cancel for any pending
      trip; other trips offer nothing. */
  function Actions(t: ScheduledTrip): (r: seq<TripAction>)
    ensures Join in r <==> t.isShared && t.status == "pending"
    ensures Confirm in r <==> t.status == "pending"
    ensures Cancel in r <==> t.status == "pending"
    ensures t.status != "pending" ==> r == []
  {
    (if t.isShared && t.status == "pending" then [Join] else [])
    + (if t.status == "pending" then [Confirm, Cancel] else [])
  }

  /** What a button does: open the join dialog, send `{ status: "confirmed" }`,
      or delete the trip. */
  datatype TripRequest = OpenJoinDialog(trip: ScheduledTrip) | SetStatus(id: string, status: string) | DeleteTrip(id: string)

  function ActionRequest(t: ScheduledTrip, a: TripAction): (q: TripRequest)
    ensures a == Join ==> q == OpenJoinDialog(t)
    ensures a == Confirm ==> q == SetStatus(t.id, "confirmed")
    ensures a == Cancel ==> q == DeleteTrip(t.id)
  {
    match a
    case Join => OpenJoinDialog(t)
    case Confirm => SetStatus(t.id, "confirmed")
    case Cancel => DeleteTrip(t.id)
  }

  function NotId(id: string): ScheduledTrip -> bool {
    (t: ScheduledTrip) => t.id != id
  }

  /** The trip list after the database applies a request: a status update
      changes only the status of the trips with that id; a delete removes
      them. */
  function ApplyRequest(trips: seq<ScheduledTrip>, q: TripRequest): (r: seq<ScheduledTrip>)
    ensures q.SetStatus? ==> |r| == |trips| && forall i :: 0 <= i < |trips| ==>
      r[i] == if trips[i].id == q.id then trips[i].(status := q.status) else trips[i]
    ensures q.DeleteTrip? ==> Seqs.IsSubsequence(r, trips) && forall i :: 0 <= i < |r| ==> r[i].id != q.id
    ensures q.DeleteTrip? ==> forall i :: 0 <= i < |trips| && trips[i].id != q.id ==> trips[i] in r
    ensures q.OpenJoinDialog? ==> r == trips
  {
    match q
    case OpenJoinDialog(_) => trips
    case SetStatus(id, status) =>
      seq(|trips|, i requires 0 <= i < |trips| =>
        if trips[i].id == id then trips[i].(status := status) else trips[i])
    case DeleteTrip(id) =>
      Seqs.FilterIsSubsequence(trips, NotId(id));
      Seqs.Filter(trips, NotId(id))
  }

  /** Confirming a pending trip moves it from the pending tab to the
      confirmed tab; cancelling it removes it from every tab. */
  lemma ConfirmAndCancel(trips: seq<ScheduledTrip>, k: nat)
    requires k < |trips| && trips[k].status == "pending"
    ensures ApplyRequest(trips, ActionRequest(trips[k], Confirm))[k].status == "confirmed"
    ensures ApplyRequest(trips, ActionRequest(trips[k], Confirm))[k] in ConfirmedTrips(ApplyRequest(trips, ActionRequest(trips[k], Confirm)))
    ensures ApplyRequest(trips, ActionRequest(trips[k], Confirm))[k] !in PendingTrips(ApplyRequest(trips, ActionRequest(trips[k], Confirm)))
    ensures forall i :: 0 <= i < |ApplyRequest(trips, ActionRequest(trips[k], Cancel))| ==>
      ApplyRequest(trips, ActionRequest(trips[k], Cancel))[i].id != trips[k].id
  {
    var after := ApplyRequest(trips, ActionRequest(trips[k], Confirm));
    assert after[k].status == "confirmed";
    assert IsConfirmedTrip(after[k]);
  }

  /** `labels[status]`: five known statuses; any other has no label. */
  function TripStatusLabel(status: string): (l: Option<string>)
    ensures l.None? <==> status !in {"pending", "confirmed", "in_progress", "completed", "cancelled"}
    ensures status == "pending" ==> l == Some("Pendiente")
    ensures status == "confirmed" ==> l == Some("Confirmado")
    ensures status == "in_progress" ==> l == Some("En progreso")
    ensures status == "completed" ==> l == Some("Completado")
    ensures status == "cancelled" ==> l == Some("Cancelado")
  {
    if status == "pending" then Some("Pendiente")
    else if status == "confirmed" then Some("Confirmado")
    else if status == "in_progress" then Some("En progreso")
    else if status == "completed" then Some("Completado")
    else if status == "cancelled" then Some("Cancelado")
    else None
  }
}
