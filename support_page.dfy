/** The support page: the search over tickets, the three status tabs, the
    summary cards and the badge tables shared with the ticket dialog. */
module SupportPage {
  import Seqs
  import Text
  import opened SupportTicketsHook

  /** The search box: the lowered query must occur in the lowered ticket
      number, subject or user name. */
  predicate TicketMatches(t: SupportTicket, query: string) {
    var q := Text.ToLower(query);
    Text.Contains(Text.ToLower(t.ticketNumber), q)
    || Text.Contains(Text.ToLower(t.subject), q)
    || Text.Contains(Text.ToLower(t.userName), q)
  }

  function MatchesBy(query: string): SupportTicket -> bool {
    (t: SupportTicket) => TicketMatches(t, query)
  }

  /** `filteredTickets`. */
  function FilteredTickets(tickets: seq<SupportTicket>, query: string): (r: seq<SupportTicket>)
    ensures Seqs.IsSubsequence(r, tickets)
    ensures forall i :: 0 <= i < |r| ==> TicketMatches(r[i], query)
    ensures forall i :: 0 <= i < |tickets| && TicketMatches(tickets[i], query) ==> tickets[i] in r
  {
    Seqs.FilterIsSubsequence(tickets, MatchesBy(query));
    Seqs.Filter(tickets, MatchesBy(query))
  }

  /** An empty query keeps every ticket in order, and a ticket is found by
      its own number whatever the case typed. */
  lemma SearchProperties(tickets: seq<SupportTicket>, t: SupportTicket)
    ensures FilteredTickets(tickets, "") == tickets
    ensures TicketMatches(t, t.ticketNumber)
    ensures TicketMatches(t, Text.ToUpper(t.ticketNumber))
  {
    forall i | 0 <= i < |tickets| ensures TicketMatches(tickets[i], "") {
      Text.ContainsEmpty(Text.ToLower(tickets[i].ticketNumber));
    }
    Seqs.FilterAll(tickets, MatchesBy(""));
    Text.LowerIdempotent(t.ticketNumber);
    var n := Text.ToLower(t.ticketNumber);
    assert n[0..|n|] == n;
    Text.ContainsAt(n, n, 0);
  }

  predicate IsOpen(t: SupportTicket) { t.status == "open" }
  predicate IsInProgress(t: SupportTicket) { t.status == "in_progress" }
  predicate IsResolvedOrClosed(t: SupportTicket) { t.status == "resolved" || t.status == "closed" }

  /** The three tabs. */
  function OpenTickets(filtered: seq<SupportTicket>): seq<SupportTicket> {
    Seqs.Filter(filtered, IsOpen)
  }

  function InProgressTickets(filtered: seq<SupportTicket>): seq<SupportTicket> {
    Seqs.Filter(filtered, IsInProgress)
  }

  function ResolvedTickets(filtered: seq<SupportTicket>): seq<SupportTicket> {
    Seqs.Filter(filtered, IsResolvedOrClosed)
  }

  /** The tabs are order-preserving parts of the filtered list that share
      no ticket; a ticket of any other status is in none of them. */
  lemma TabsPartition(filtered: seq<SupportTicket>)
    ensures Seqs.IsSubsequence(OpenTickets(filtered), filtered)
    ensures Seqs.IsSubsequence(InProgressTickets(filtered), filtered)
    ensures Seqs.IsSubsequence(ResolvedTickets(filtered), filtered)
    ensures forall i :: 0 <= i < |OpenTickets(filtered)| ==>
      OpenTickets(filtered)[i] !in InProgressTickets(filtered) && OpenTickets(filtered)[i] !in ResolvedTickets(filtered)
    ensures forall i :: 0 <= i < |InProgressTickets(filtered)| ==> InProgressTickets(filtered)[i] !in ResolvedTickets(filtered)
    ensures forall t :: t in filtered && t.status !in {"open", "in_progress", "resolved", "closed"} ==>
      t !in OpenTickets(filtered) && t !in InProgressTickets(filtered) && t !in ResolvedTickets(filtered)
  {
    Seqs.FilterIsSubsequence(filtered, IsOpen);
    Seqs.FilterIsSubsequence(filtered, IsInProgress);
    Seqs.FilterIsSubsequence(filtered, IsResolvedOrClosed);
    Seqs.FilterDisjoint(filtered, IsOpen, IsInProgress);
    Seqs.FilterDisjoint(filtered, IsOpen, IsResolvedOrClosed);
    Seqs.FilterDisjoint(filtered, IsInProgress, IsResolvedOrClosed);
  }

  /** The Total card counts every ticket, so under any search it is at least
      the three tab counts together. */
  lemma TotalCardBound(tickets: seq<SupportTicket>, query: string)
    ensures |OpenTickets(FilteredTickets(tickets, query))| + |InProgressTickets(FilteredTickets(tickets, query))|
          + |ResolvedTickets(FilteredTickets(tickets, query))| <= |tickets|
  {
    Seqs.FilterCountBound3(FilteredTickets(tickets, query), IsOpen, IsInProgress, IsResolvedOrClosed);
  }

  /** The colour class of a badge. */
  datatype BadgeStyle = Accent | Primary | Secondary | SecondarySoft | Muted | Destructive

  datatype Badge = Badge(style: BadgeStyle, caption: string)

  /** `getStatusBadge`: the four known statuses; anything else is shown as
      open. */
  function StatusBadge(status: string): (b: Badge)
    ensures status == "open" ==> b == Badge(Accent, "Abierto")
    ensures status == "in_progress" ==> b == Badge(Primary, "En proceso")
    ensures status == "resolved" ==> b == Badge(Secondary, "Resuelto")
    ensures status == "closed" ==> b == Badge(Muted, "Cerrado")
    ensures status !in {"open", "in_progress", "resolved", "closed"} ==> b == Badge(Accent, "Abierto")
  {
    if status == "in_progress" then Badge(Primary, "En proceso")
    else if status == "resolved" then Badge(Secondary, "Resuelto")
    else if status == "closed" then Badge(Muted, "Cerrado")
    else Badge(Accent, "Abierto")
  }

  /** `getPriorityBadge`: the four known priorities; anything else is shown
      as normal. */
  function PriorityBadge(priority: string): (b: Badge)
    ensures priority == "low" ==> b == Badge(Muted, "Baja")
    ensures priority == "normal" ==> b == Badge(SecondarySoft, "Normal")
    ensures priority == "high" ==> b == Badge(Accent, "Alta")
    ensures priority == "urgent" ==> b == Badge(Destructive, "Urgente")
    ensures priority !in {"low", "normal", "high", "urgent"} ==> b == Badge(SecondarySoft, "Normal")
  {
    if priority == "low" then Badge(Muted, "Baja")
    else if priority == "high" then Badge(Accent, "Alta")
    else if priority == "urgent" then Badge(Destructive, "Urgente")
    else Badge(SecondarySoft, "Normal")
  }

  datatype CategoryIcon = CarIcon | CardIcon | UserIcon | ShieldIcon | HelpIcon

  /** `getCategoryIcon`: five known categories; anything else gets the
      "other" icon. */
  function CategoryIconOf(category: string): (i: CategoryIcon)
    ensures category == "trip" ==> i == CarIcon
    ensures category == "payment" ==> i == CardIcon
    ensures category == "account" ==> i == UserIcon
    ensures category == "safety" ==> i == ShieldIcon
    ensures category !in {"trip", "payment", "account", "safety"} ==> i == HelpIcon
  {
    if category == "trip" then CarIcon
    else if category == "payment" then CardIcon
    else if category == "account" then UserIcon
    else if category == "safety" then ShieldIcon
    else HelpIcon
  }

  /** Each tab shows the badges of its own statuses. */
  lemma TabBadges(filtered: seq<SupportTicket>)
    ensures forall i :: 0 <= i < |OpenTickets(filtered)| ==>
      StatusBadge(OpenTickets(filtered)[i].status).caption == "Abierto"
    ensures forall i :: 0 <= i < |InProgressTickets(filtered)| ==>
      StatusBadge(InProgressTickets(filtered)[i].status).caption == "En proceso"
    ensures forall i :: 0 <= i < |ResolvedTickets(filtered)| ==>
      StatusBadge(ResolvedTickets(filtered)[i].status).caption in {"Resuelto", "Cerrado"}
  {
  }
}
