/** The audit route (routes/audit.js): the events of one ticket, oldest
    first, read from the log without changing it. */
module AuditRoute {
  import opened Domain
  import opened Sorting
  import Agent

  function IsFor(ticketId: nat): AuditEvent -> bool {
    (e: AuditEvent) => e.ticketId == ticketId
  }

  function Timestamp(e: AuditEvent): int {
    e.timestamp
  }

  /** `AuditLog.find({ ticketId }).sort({ timestamp: 1 })`. */
  function TicketLog(audit: seq<AuditEvent>, ticketId: nat): seq<AuditEvent> {
    SortBy(Filter(audit, IsFor(ticketId)), Timestamp)
  }

  /** GET /tickets/:id/audit: reads the log and changes nothing. */
  method ListAudit(s: Agent.Store, ticketId: nat) returns (logs: seq<AuditEvent>)
    ensures forall k :: 0 <= k < |logs| ==> logs[k] in s.audit && logs[k].ticketId == ticketId
    ensures multiset(logs) == multiset(Filter(s.audit, IsFor(ticketId)))
    ensures SortedBy(logs, Timestamp)
  {
    logs := TicketLog(s.audit, ticketId);
    TicketLogShape(s.audit, ticketId);
  }

  /** The listing holds events of the ticket only, every one of them as many
      times as it was logged and with no limit, in ascending timestamp order. */
  lemma TicketLogShape(audit: seq<AuditEvent>, ticketId: nat)
    ensures var logs := TicketLog(audit, ticketId);
            (forall k :: 0 <= k < |logs| ==> logs[k] in audit && logs[k].ticketId == ticketId) &&
            multiset(logs) == multiset(Filter(audit, IsFor(ticketId))) &&
            SortedBy(logs, Timestamp)
  {
    var kept := Filter(audit, IsFor(ticketId));
    var logs := TicketLog(audit, ticketId);
    forall k | 0 <= k < |logs| ensures logs[k] in audit && logs[k].ticketId == ticketId {
      assert logs[k] in multiset(logs);
      assert logs[k] in multiset(kept);
      FilterMembership(audit, IsFor(ticketId), logs[k]);
    }
  }

  /** Every event logged for the ticket is listed. */
  lemma TicketLogComplete(audit: seq<AuditEvent>, ticketId: nat)
    ensures forall i :: 0 <= i < |audit| && audit[i].ticketId == ticketId ==> audit[i] in TicketLog(audit, ticketId)
  {
    var kept := Filter(audit, IsFor(ticketId));
    forall i | 0 <= i < |audit| && audit[i].ticketId == ticketId ensures audit[i] in TicketLog(audit, ticketId) {
      FilterMembership(audit, IsFor(ticketId), audit[i]);
      assert audit[i] in multiset(kept);
      assert audit[i] in multiset(TicketLog(audit, ticketId));
    }
  }

  /** A ticket with no events has an empty listing. */
  lemma NoEventsEmpty(audit: seq<AuditEvent>, ticketId: nat)
    requires forall i :: 0 <= i < |audit| ==> audit[i].ticketId != ticketId
    ensures TicketLog(audit, ticketId) == []
  {
    FilterNone(audit, IsFor(ticketId));
  }

  /** When the ticket's events were logged with non-decreasing timestamps (as
      a clock that does not run backwards gives them; the events of one
      triage run share one), the listing is exactly those events in the order
      they were written. */
  lemma TicketLogInWriteOrder(audit: seq<AuditEvent>, ticketId: nat)
    requires forall i, j :: 0 <= i < j < |audit| && audit[i].ticketId == ticketId && audit[j].ticketId == ticketId ==>
               audit[i].timestamp <= audit[j].timestamp
    ensures TicketLog(audit, ticketId) == Filter(audit, IsFor(ticketId))
  {
    FilterKeepsOrder(audit, IsFor(ticketId), Timestamp);
    SortSortedIsIdentity(Filter(audit, IsFor(ticketId)), Timestamp);
  }

  /** Appending events of other tickets does not change a ticket's listing. */
  lemma OtherTicketsIgnored(audit: seq<AuditEvent>, more: seq<AuditEvent>, ticketId: nat)
    requires forall i :: 0 <= i < |more| ==> more[i].ticketId != ticketId
    ensures TicketLog(audit + more, ticketId) == TicketLog(audit, ticketId)
  {
    FilterAppend(audit, more, IsFor(ticketId));
    FilterNone(more, IsFor(ticketId));
    assert Filter(audit, IsFor(ticketId)) + [] == Filter(audit, IsFor(ticketId));
  }
}
