/** The ticket detail dialog: the status change it sends, the category
    label, and the conversation with its message box. */
module TicketDetailDialog {
  import opened Wrappers
  import Text
  import opened SupportTicketsHook

  /** The update `handleStatusChange` sends: the status and `resolved_at`,
      which is the time for "resolved" and null for every other status. */
  datatype TicketPatch = TicketPatch(status: string, resolvedAt: Option<string>)

  function StatusChangePatch(status: string, now: string): (u: TicketPatch)
    ensures u.status == status
    ensures u.resolvedAt.Some? <==> status == "resolved"
    ensures u.resolvedAt.Some? ==> u.resolvedAt.value == now
  {
    TicketPatch(status, if status == "resolved" then Some(now) else None)
  }

  /** The ticket after the database applies the patch: status and
      `resolved_at` are overwritten, nothing else changes. */
  function ApplyTicketPatch(t: SupportTicket, u: TicketPatch): (r: SupportTicket)
    ensures r.status == u.status && r.resolvedAt == u.resolvedAt
    ensures r.(status := t.status, resolvedAt := t.resolvedAt) == t
  {
    t.(status := u.status, resolvedAt := u.resolvedAt)
  }

  /** A resolved ticket that is then closed loses its resolution time;
      reopening clears it too. */
  lemma CloseClearsResolvedAt(t: SupportTicket, now: string, later: string)
    ensures ApplyTicketPatch(t, StatusChangePatch("resolved", now)).resolvedAt == Some(now)
    ensures ApplyTicketPatch(ApplyTicketPatch(t, StatusChangePatch("resolved", now)),
                             StatusChangePatch("closed", later)).resolvedAt == None
    ensures ApplyTicketPatch(ApplyTicketPatch(t, StatusChangePatch("resolved", now)),
                             StatusChangePatch("open", later)).resolvedAt == None
  {
  }

  /** `categoryLabels[ticket.category]`: seven known categories; any other
      category has no label (the lookup gives undefined). */
  function CategoryLabel(category: string): (l: Option<string>)
    ensures l.None? <==> category !in {"trip", "payment", "account", "safety", "driver", "app", "other"}
    ensures category == "trip" ==> l == Some("Problema con viaje")
    ensures category == "payment" ==> l == Some("Pagos y facturación")
    ensures category == "account" ==> l == Some("Mi cuenta")
    ensures category == "safety" ==> l == Some("Seguridad")
    ensures category == "driver" ==> l == Some("Conductor")
    ensures category == "app" ==> l == Some("Problema técnico")
    ensures category == "other" ==> l == Some("Otro")
  {
    if category == "trip" then Some("Problema con viaje")
    else if category == "payment" then Some("Pagos y facturación")
    else if category == "account" then Some("Mi cuenta")
    else if category == "safety" then Some("Seguridad")
    else if category == "driver" then Some("Conductor")
    else if category == "app" then Some("Problema técnico")
    else if category == "other" then Some("Otro")
    else None
  }

  /** The dialog's state for one ticket: the loaded messages, the text being
      typed and the sending flag. */
  class TicketConversation {
    const ticket: SupportTicket
    var messages: seq<TicketMessage>
    var newMessage: string
    var loading: bool

    constructor (ticket: SupportTicket)
      ensures this.ticket == ticket
      ensures messages == [] && newMessage == "" && !loading
    {
      this.ticket := ticket;
      messages, newMessage, loading := [], "", false;
    }

    /** `loadMessages`: the list is replaced by what `getTicketMessages`
        returned (empty on error). */
    method MessagesLoaded(msgs: seq<TicketMessage>)
      modifies this`messages
      ensures messages == msgs
    {
      messages := msgs;
    }

    /** The typed text changes. */
    method Type(text: string)
      modifies this`newMessage
      ensures newMessage == text
    {
      newMessage := text;
    }

    /** The message box is shown unless the ticket is closed. */
    predicate InputShown()
      reads this
    {
      ticket.status != "closed"
    }

    /** The send button is disabled while sending or with nothing but
        whitespace typed. */
    predicate SendDisabled()
      reads this
    {
      loading || Text.Trim(newMessage) == ""
    }

    /** The start of `handleSendMessage`: a whitespace-only text sends
        nothing and changes nothing; otherwise the flag rises and the trimmed
        text is sent as the ticket's user. */
    method BeginSend() returns (request: Option<NewMessage>)
      modifies this`loading
      ensures request.None? <==> Text.AllWhitespace(newMessage)
      ensures request.None? ==> loading == old(loading)
      ensures request.Some? ==> loading
      ensures request.Some? ==> request.value.senderType == "user" && request.value.senderName == ticket.userName
      ensures request.Some? ==> request.value.message == Text.Trim(newMessage) && request.value.message != ""
    {
      Text.TrimEmptyIff(newMessage);
      var text := Text.Trim(newMessage);
      if text == "" {
        request := None;
      } else {
        loading := true;
        request := Some(NewMessage("user", ticket.userName, text));
      }
    }

    /** `handleStatusChange`: the patch is sent to the database and nothing
        in the dialog changes; its `ticket` is the row it was opened with. */
    method ChangeStatus(status: string, now: string) returns (patch: TicketPatch)
      ensures patch.status == status
      ensures patch.resolvedAt.Some? <==> status == "resolved"
      ensures patch.resolvedAt.Some? ==> patch.resolvedAt.value == now
    {
      patch := StatusChangePatch(status, now);
    }

    /** The end of `handleSendMessage`: the text is cleared only when the
        message was stored, and then the messages are reloaded; the flag
        drops either way. */
    method FinishSend(success: bool) returns (reload: bool)
      modifies this`newMessage, this`loading
      ensures !loading
      ensures success ==> newMessage == ""
      ensures !success ==> newMessage == old(newMessage)
      ensures reload == success
    {
      if success {
        newMessage := "";
      }
      loading := false;
      reload := success;
    }
  }

  /** The send button is enabled exactly when no message is being sent and
      `handleSendMessage` would send something: text that is not only
      whitespace. */
  lemma SendGuard(c: TicketConversation)
    ensures c.SendDisabled() <==> c.loading || Text.AllWhitespace(c.newMessage)
  {
    Text.TrimEmptyIff(c.newMessage);
  }

  /** As written, closing the ticket from the open dialog leaves the
      message box in place: the stored row is closed, but the dialog still
      shows the row it was opened with, which was not. */
  lemma StaleInputAfterClose(c: TicketConversation, now: string)
    requires c.ticket.status != "closed"
    ensures ApplyTicketPatch(c.ticket, StatusChangePatch("closed", now)).status == "closed"
    ensures c.InputShown()
  {
  }

  /** The intended behaviour, which a dialog opened on the row as stored
      after a status change has: the message box is shown exactly when the
      new status is not "closed", whatever the resolution time. */
  lemma InputAfterStatusChange(c: TicketConversation, t: SupportTicket, status: string, now: string)
    requires c.ticket == ApplyTicketPatch(t, StatusChangePatch(status, now))
    ensures c.InputShown() <==> status != "closed"
  {
  }
}
