/** The maintenance list: a card per scheduled service, its status and
    priority badges, the status changes it offers and the update each one
    sends. */
module MaintenanceList {
  import opened Wrappers
  import Calendar

  /** The status column is free text; a value outside the four known ones
      is kept as it is. */
  datatype MaintStatus = Scheduled | InProgress | Completed | Cancelled | OtherStatus(name: string)

  /** The priority column is free text too. */
  datatype Priority = Low | Normal | High | Urgent | OtherPriority(name: string)

  /** A row of the maintenance schedules table; `scheduledDate` is the parsed
      ISO date. */
  datatype Maintenance = Maintenance(
    id: string,
    vehicleId: string,
    driverName: string,
    serviceType: string,
    scheduledDate: Calendar.Instant,
    status: MaintStatus,
    priority: Priority,
    cost: Option<int>,
    notes: Option<string>,
    reminderSent: bool,
    completedDate: Option<string>)

  /** The `updates` object of `handleStatusChange`: the new status, and
      `completed_date` only when completing. */
  datatype MaintenancePatch = MaintenancePatch(status: MaintStatus, completedDate: Option<string>)

  function StatusChangeUpdate(newStatus: MaintStatus, now: string): (u: MaintenancePatch)
    ensures u.status == newStatus
    ensures u.completedDate.Some? <==> newStatus == Completed
    ensures u.completedDate.Some? ==> u.completedDate.value == now
  {
    MaintenancePatch(newStatus, if newStatus == Completed then Some(now) else None)
  }

  /** The row after the database applies the patch: the fields it holds are
      overwritten, every other field is kept. */
  function ApplyMaintenancePatch(m: Maintenance, u: MaintenancePatch): (r: Maintenance)
    ensures r.status == u.status
    ensures r.completedDate == (if u.completedDate.Some? then u.completedDate else m.completedDate)
    ensures r.(status := m.status, completedDate := m.completedDate) == m
  {
    m.(status := u.status, completedDate := if u.completedDate.Some? then u.completedDate else m.completedDate)
  }

  /** The buttons of a card: start or complete a scheduled service, complete
      one in progress; completed and cancelled services offer nothing. */
  function Transitions(status: MaintStatus): (r: seq<MaintStatus>)
    ensures status == Scheduled ==> r == [InProgress, Completed]
    ensures status == InProgress ==> r == [Completed]
    ensures status != Scheduled && status != InProgress ==> r == []
  {
    match status
    case Scheduled => [InProgress, Completed]
    case InProgress => [Completed]
    case Completed => []
    case Cancelled => []
    case OtherStatus(_) => []
  }

  /** How far along the lifecycle a status is. */
  function Rank(s: MaintStatus): nat {
    match s
    case Scheduled => 0
    case InProgress => 1
    case Completed => 2
    case Cancelled => 2
    case OtherStatus(_) => 2
  }

  /** Every offered change moves forward, none leads back to scheduled or to
      cancelled, and each lands where the update says. */
  lemma TransitionsMoveForward(m: Maintenance, now: string)
    ensures forall i :: 0 <= i < |Transitions(m.status)| ==> Rank(Transitions(m.status)[i]) > Rank(m.status)
    ensures Scheduled !in Transitions(m.status) && Cancelled !in Transitions(m.status)
    ensures forall i :: 0 <= i < |Transitions(m.status)| ==>
      ApplyMaintenancePatch(m, StatusChangeUpdate(Transitions(m.status)[i], now)).status == Transitions(m.status)[i]
  {
  }

  /** Two offered changes in a row reach a status that offers no more: a
      service is done after at most two clicks. */
  lemma TransitionsEnd(s: MaintStatus)
    ensures forall i :: 0 <= i < |Transitions(s)| ==>
      forall j :: 0 <= j < |Transitions(Transitions(s)[i])| ==>
        Transitions(Transitions(Transitions(s)[i])[j]) == []
  {
  }

  /** Completing stamps the service; starting it leaves any earlier stamp. */
  lemma CompletionStamp(m: Maintenance, now: string)
    ensures ApplyMaintenancePatch(m, StatusChangeUpdate(Completed, now)).completedDate == Some(now)
    ensures ApplyMaintenancePatch(m, StatusChangeUpdate(InProgress, now)).completedDate == m.completedDate
  {
  }

  /** `statusConfig[status]`: the four known statuses have an entry; any
      other value has none (the lookup gives undefined). */
  function StatusLabel(s: MaintStatus): (l: Option<string>)
    ensures l.None? <==> s.OtherStatus?
    ensures s == Scheduled ==> l == Some("Programado")
    ensures s == InProgress ==> l == Some("En Progreso")
    ensures s == Completed ==> l == Some("Completado")
    ensures s == Cancelled ==> l == Some("Cancelado")
  {
    match s
    case Scheduled => Some("Programado")
    case InProgress => Some("En Progreso")
    case Completed => Some("Completado")
    case Cancelled => Some("Cancelado")
    case OtherStatus(_) => None
  }

  /** `priorityConfig[priority]`, likewise. */
  function PriorityLabel(p: Priority): (l: Option<string>)
    ensures l.None? <==> p.OtherPriority?
    ensures p == Low ==> l == Some("Baja")
    ensures p == Normal ==> l == Some("Normal")
    ensures p == High ==> l == Some("Alta")
    ensures p == Urgent ==> l == Some("Urgente")
  {
    match p
    case Low => Some("Baja")
    case Normal => Some("Normal")
    case High => Some("Alta")
    case Urgent => Some("Urgente")
    case OtherPriority(_) => None
  }

  /** A card can be drawn: both badge lookups find an entry. */
  predicate HasBadges(m: Maintenance) {
    StatusLabel(m.status).Some? && PriorityLabel(m.priority).Some?
  }

  /** What the list renders: the empty-state card, one card per service, or
      the exception a card throws when reading `.icon`, `.color` or `.label`
      of a missing entry. */
  datatype ListView = EmptyState | Cards(items: seq<Maintenance>) | RenderFails

  function ListViewOf(maintenances: seq<Maintenance>): (v: ListView)
    ensures v.EmptyState? <==> maintenances == []
    ensures v.Cards? ==> v.items == maintenances
    ensures v.RenderFails? <==> exists i :: 0 <= i < |maintenances| && !HasBadges(maintenances[i])
  {
    if maintenances == [] then EmptyState
    else if forall i :: 0 <= i < |maintenances| ==> HasBadges(maintenances[i]) then Cards(maintenances)
    else RenderFails
  }
}
