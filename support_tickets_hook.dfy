/** The support-tickets hook: ticket numbers, ticket creation, messages on a
    ticket, and the fetched ticket list. */
module SupportTicketsHook {
  import opened Wrappers
  import Seqs
  import Text
  import Radix

  /** A row of the support tickets table. */
  datatype SupportTicket = SupportTicket(
    id: string,
    ticketNumber: string,
    userName: string,
    email: Option<string>,
    phone: Option<string>,
    category: string,
    priority: string,
    subject: string,
    description: string,
    status: string,
    assignedTo: Option<string>,
    resolution: Option<string>,
    relatedTripId: Option<string>,
    createdAt: string,
    resolvedAt: Option<string>)

  /** The argument of `createTicket`: a ticket without the fields the
      database or the hook fills in. */
  datatype NewTicket = NewTicket(
    userName: string,
    email: Option<string>,
    phone: Option<string>,
    category: string,
    priority: string,
    subject: string,
    description: string,
    status: string,
    assignedTo: Option<string>,
    resolution: Option<string>,
    relatedTripId: Option<string>)

  /** `{ ...ticket, ticket_number }`. */
  datatype TicketInsert = TicketInsert(ticket: NewTicket, ticketNumber: string)

  /** `s.substring(start, end)` with `start <= end`: both ends are clamped to
      the length. */
  function Substring(s: string, start: nat, end: nat): (r: string)
    requires start <= end
    ensures |r| <= end - start
    ensures start <= |s| ==> r == s[start..if end <= |s| then end else |s|]
    ensures start > |s| ==> r == ""
  {
    var a := if start <= |s| then start else |s|;
    var b := if end <= |s| then end else |s|;
    s[a..b]
  }

  /** `generateTicketNumber`: "TKT-", the clock in base 36 upper case, "-",
      and four upper-cased characters of the text `Math.random()` printed in
      base 36 (`randomText`, an input here). */
  function GenerateTicketNumber(nowMs: nat, randomText: string): (n: string)
    ensures |n| == 5 + |Radix.ToRadixString(nowMs, 36)| + |Substring(randomText, 2, 6)|
    ensures |n| <= 9 + |Radix.ToRadixString(nowMs, 36)|
    ensures n[..4] == "TKT-"
    ensures n[4..4 + |Radix.ToRadixString(nowMs, 36)|] == Text.ToUpper(Radix.ToRadixString(nowMs, 36))
    ensures n[4 + |Radix.ToRadixString(nowMs, 36)|] == '-'
    ensures n[5 + |Radix.ToRadixString(nowMs, 36)|..] == Text.ToUpper(Substring(randomText, 2, 6))
  {
    "TKT-" + Text.ToUpper(Radix.ToRadixString(nowMs, 36)) + "-" + Text.ToUpper(Substring(randomText, 2, 6))
  }

  /** The text before the first '-', or all of it. */
  function UpToDash(s: string): (r: string)
    ensures |r| <= |s| && r == s[..|r|]
    ensures '-' !in r
  {
    if s == [] || s[0] == '-' then [] else [s[0]] + UpToDash(s[1..])
  }

  lemma {:induction false} UpToDashAppend(a: string, b: string)
    requires '-' !in a
    ensures UpToDash(a + "-" + b) == a
  {
    if a != [] {
      assert (a + "-" + b)[1..] == a[1..] + "-" + b;
      UpToDashAppend(a[1..], b);
    }
  }

  /** Reads the clock back out of a ticket number. */
  function TicketTimestamp(number: string): Option<nat> {
    if |number| >= 4 && number[..4] == "TKT-" then Radix.ParseRadix(UpToDash(number[4..]), 36)
    else None
  }

  /** A number of the generated shape decodes to its timestamp segment. */
  lemma DecodeSegments(stamp: string, random: string)
    requires '-' !in stamp
    ensures TicketTimestamp("TKT-" + stamp + "-" + random) == Radix.ParseRadix(stamp, 36)
  {
    var n := "TKT-" + stamp + "-" + random;
    assert n[..4] == "TKT-";
    assert n[4..] == stamp + "-" + random;
    UpToDashAppend(stamp, random);
  }

  /** The timestamp segment uses only 0-9 and A-Z and decodes back to the
      clock value the number was generated from. */
  lemma TicketNumberRoundTrip(nowMs: nat, randomText: string)
    ensures forall i :: 0 <= i < |Text.ToUpper(Radix.ToRadixString(nowMs, 36))| ==>
      var c := Text.ToUpper(Radix.ToRadixString(nowMs, 36))[i]; '0' <= c <= '9' || 'A' <= c <= 'Z'
    ensures TicketTimestamp(GenerateTicketNumber(nowMs, randomText)) == Some(nowMs)
  {
    var stamp := Text.ToUpper(Radix.ToRadixString(nowMs, 36));
    Radix.Base36UpperRoundTrip(nowMs);
    assert '-' !in stamp by {
      forall i | 0 <= i < |stamp| ensures stamp[i] != '-' {
        var c := stamp[i];
        assert '0' <= c <= '9' || 'A' <= c <= 'Z';
      }
    }
    DecodeSegments(stamp, Text.ToUpper(Substring(randomText, 2, 6)));
  }

  /** Tickets created at different milliseconds get different numbers,
      whatever the random parts. */
  lemma TicketNumbersDistinct(t1: nat, r1: string, t2: nat, r2: string)
    requires t1 != t2
    ensures GenerateTicketNumber(t1, r1) != GenerateTicketNumber(t2, r2)
  {
    TicketNumberRoundTrip(t1, r1);
    TicketNumberRoundTrip(t2, r2);
  }

  /** What `createTicket` does: the row it inserts, and what it returns. */
  datatype CreateOutcome = CreateOutcome(insert: TicketInsert, result: Option<string>)

  /** `createTicket`: insert the input with a fresh number; answer the number,
      or null when the insert fails. */
  function CreateTicket(ticket: NewTicket, nowMs: nat, randomText: string, insertFailed: bool): (o: CreateOutcome)
    ensures o.insert.ticket == ticket
    ensures TicketTimestamp(o.insert.ticketNumber) == Some(nowMs)
    ensures o.result.Some? <==> !insertFailed
    ensures o.result.Some? ==> o.result.value == o.insert.ticketNumber
  {
    var number := GenerateTicketNumber(nowMs, randomText);
    TicketNumberRoundTrip(nowMs, randomText);
    CreateOutcome(TicketInsert(ticket, number), if insertFailed then None else Some(number))
  }

  /** A row of the ticket messages table. */
  datatype TicketMessage = TicketMessage(
    id: string,
    ticketId: string,
    senderType: string,
    senderName: string,
    message: string,
    createdAt: string)

  /** The argument of `addMessage`. */
  datatype NewMessage = NewMessage(senderType: string, senderName: string, message: string)

  /** `{ ...message, ticket_id: ticketId }`. */
  datatype MessageInsert = MessageInsert(message: NewMessage, ticketId: string)

  datatype AddOutcome = AddOutcome(insert: MessageInsert, ok: bool)

  /** `addMessage`: insert the message on the ticket; true unless the insert
      fails. */
  function AddMessage(ticketId: string, message: NewMessage, insertFailed: bool): (o: AddOutcome)
    ensures o.insert.ticketId == ticketId && o.insert.message == message
    ensures o.ok <==> !insertFailed
  {
    AddOutcome(MessageInsert(message, ticketId), !insertFailed)
  }

  /** The row the database stores for an insert, with the id and time it
      assigns. */
  function StoredMessage(insert: MessageInsert, id: string, createdAt: string): (m: TicketMessage)
    ensures m.ticketId == insert.ticketId && m.message == insert.message.message
    ensures m.senderType == insert.message.senderType && m.senderName == insert.message.senderName
  {
    TicketMessage(id, insert.ticketId, insert.message.senderType, insert.message.senderName,
                  insert.message.message, createdAt)
  }

  function OnTicket(ticketId: string): TicketMessage -> bool {
    (m: TicketMessage) => m.ticketId == ticketId
  }

  /** `getTicketMessages` over the messages table, kept in creation order: the
      ticket's messages, or nothing when the query fails. */
  function GetTicketMessages(table: seq<TicketMessage>, ticketId: string, queryFailed: bool): (r: seq<TicketMessage>)
    ensures queryFailed ==> r == []
    ensures !queryFailed ==> Seqs.IsSubsequence(r, table)
    ensures forall i :: 0 <= i < |r| ==> r[i].ticketId == ticketId
    ensures !queryFailed ==> forall i :: 0 <= i < |table| && table[i].ticketId == ticketId ==> table[i] in r
  {
    if queryFailed then []
    else
      Seqs.FilterIsSubsequence(table, OnTicket(ticketId));
      Seqs.Filter(table, OnTicket(ticketId))
  }

  /** A message added to a ticket is the last of that ticket's conversation
      when read back, and other tickets' conversations are unchanged. */
  lemma AddedMessageReadBack(
    table: seq<TicketMessage>, ticketId: string, message: NewMessage, id: string, createdAt: string, other: string)
    requires other != ticketId
    ensures GetTicketMessages(table + [StoredMessage(AddMessage(ticketId, message, false).insert, id, createdAt)], ticketId, false)
         == GetTicketMessages(table, ticketId, false) + [StoredMessage(AddMessage(ticketId, message, false).insert, id, createdAt)]
    ensures GetTicketMessages(table + [StoredMessage(AddMessage(ticketId, message, false).insert, id, createdAt)], other, false)
         == GetTicketMessages(table, other, false)
  {
    var m := StoredMessage(AddMessage(ticketId, message, false).insert, id, createdAt);
    Seqs.FilterAppend(table, [m], OnTicket(ticketId));
    Seqs.FilterAppend(table, [m], OnTicket(other));
    assert Seqs.Filter([m], OnTicket(other)) == [];
  }

  /** The hook's state: the tickets of the last successful fetch, newest
      first, and the loading flag. */
  class TicketsStore {
    var tickets: seq<SupportTicket>
    var loading: bool

    constructor ()
      ensures tickets == [] && loading
    {
      tickets, loading := [], true;
    }

    method BeginFetch()
      modifies this`loading
      ensures loading
    {
      loading := true;
    }

    /** `fetchTickets` ends: success replaces the list, an error keeps it,
        and loading is off either way. */
    method TicketsFetched(result: Result<seq<SupportTicket>, string>)
      modifies this
      ensures !loading
      ensures result.Ok? ==> tickets == result.value
      ensures result.Err? ==> tickets == old(tickets)
    {
      if result.Ok? {
        tickets := result.value;
      }
      loading := false;
    }
  }
}
