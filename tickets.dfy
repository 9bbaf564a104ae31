/** The ticket routes (routes/tickets.js) over the store: creation, which logs
    its audit event before it starts triage under the same trace id; the list
    with its two filters; lookup; the reply route, which reopens or resolves;
    and assignment. The authentication and role gates in front of the routes
    are modelled in Auth and Rbac, the body validation in Validation. Fresh
    trace ids and the clock are parameters. */
module TicketRoutes {
  import opened Wrappers
  import opened Json
  import opened Errors
  import opened Domain
  import opened Sorting
  import Validation
  import Agent
  import Classifier
  import Drafter

  const TicketNotFound: string := "Ticket not found"
  const ReplyNotFound: string := "Not found"

  /** A stored ticket with its id, as the routes answer with it. */
  datatype Row = Row(id: nat, ticket: Ticket)

  /** The stored tickets with their ids, in storage order. */
  function Rows(tickets: seq<Ticket>): (r: seq<Row>)
    ensures |r| == |tickets|
    ensures forall i :: 0 <= i < |tickets| ==> r[i] == Row(i, tickets[i])
  {
    seq(|tickets|, i requires 0 <= i < |tickets| => Row(i, tickets[i]))
  }

  // ---------------------------------------------------------------- create

  /** The ticket stored for a validated creation request: the caller is its
      author, and it starts open, unassigned and linked to no suggestion. */
  function NewTicket(input: Validation.CreateTicketInput, sub: string, now: int): Ticket {
    Ticket(input.title, input.description, input.category, Open, sub, None, None, now)
  }

  /** The TICKET_CREATED event, by the user. */
  function CreatedEvent(id: nat, traceId: string, now: int): AuditEvent {
    AuditEvent(id, traceId, UserActor, TicketCreated, NoMeta, now)
  }

  /** The contents after POST /: the new ticket and its creation event. */
  function Create(st: Agent.State, input: Validation.CreateTicketInput, sub: string, traceId: string,
                  now: int): Agent.State {
    st.(tickets := st.tickets + [NewTicket(input, sub, now)],
        audit := st.audit + [CreatedEvent(|st.tickets|, traceId, now)])
  }

  /** POST /: stores the ticket, logs its creation under the fresh `traceId`
      and answers 201 with the ticket. Triage is started with the same trace
      id and not awaited, so the answer does not depend on it. */
  method PostTicket(s: Agent.Store, input: Validation.CreateTicketInput, sub: string, traceId: string, now: int)
    returns (status: int, row: Row)
    modifies s
    ensures s.Snapshot() == Create(old(s.Snapshot()), input, sub, traceId, now)
    ensures status == 201 && row == Row(old(|s.tickets|), NewTicket(input, sub, now))
  {
    var t := NewTicket(input, sub, now);
    var id := |s.tickets|;
    s.tickets := s.tickets + [t];
    s.AppendAudit(CreatedEvent(id, traceId, now));
    status, row := 201, Row(id, t);
  }

  /** Creation stores exactly one ticket, authored by the caller, open and
      unassigned, and logs exactly one TICKET_CREATED for it by the user;
      nothing else changes. */
  lemma CreateEffect(st: Agent.State, input: Validation.CreateTicketInput, sub: string, traceId: string, now: int)
    ensures var st' := Create(st, input, sub, traceId, now);
            var id := |st.tickets|;
            |st'.tickets| == id + 1 && st'.tickets[..id] == st.tickets &&
            st'.tickets[id].title == input.title && st'.tickets[id].createdBy == sub &&
            st'.tickets[id].status == Open && st'.tickets[id].assignee.None? &&
            st'.tickets[id].agentSuggestionId.None? &&
            st'.audit[..|st.audit|] == st.audit && Actions(st'.audit[|st.audit|..]) == [TicketCreated] &&
            st'.audit[|st.audit|].actor == UserActor && st'.audit[|st.audit|].ticketId == id &&
            st'.suggestions == st.suggestions && st'.replies == st.replies
  {
    var st' := Create(st, input, sub, traceId, now);
    assert st'.audit[|st.audit|..] == [CreatedEvent(|st.tickets|, traceId, now)];
  }

  /** When the triage started by creation runs, the ticket's log is its
      creation event followed by the triage trail, all under the trace id of
      the creation. */
  lemma CreateThenTriage(st: Agent.State, input: Validation.CreateTicketInput, sub: string, traceId: string, now: int,
                         cfg: Agent.Config, search: string -> seq<Article>, hour: int, latency: int, later: int)
    ensures var st1 := Create(st, input, sub, traceId, now);
            var id := |st.tickets|;
            var n := |st.audit|;
            var res := Agent.Triage(st1, id, traceId, cfg, search, hour, latency, later);
            res.Ok? &&
            var a := res.value.0.audit;
            n + 2 <= |a| && a[..n] == st.audit && a[n] == CreatedEvent(id, traceId, now) &&
            a[n + 1].action == TriageStarted &&
            forall i :: n <= i < |a| ==> a[i].ticketId == id && a[i].traceId == traceId
  {
    var st1 := Create(st, input, sub, traceId, now);
    var id := |st.tickets|;
    var t := st1.tickets[id];
    var kb := Agent.RetrieveKB(search, Agent.TriageText(t));
    CreatedThenTriageWrites(st, input, sub, traceId, now, cfg, Classifier.Classify(Agent.TriageText(t)), kb,
                            Drafter.DraftReply(t, kb, Drafter.DefaultTemplate, true, hour), latency, later);
  }

  /** The log part of `CreateThenTriage`, for any classification, articles
      and draft. */
  lemma CreatedThenTriageWrites(st: Agent.State, input: Validation.CreateTicketInput, sub: string, traceId: string,
                                now: int, cfg: Agent.Config, c: Classifier.Classification, kb: seq<Article>,
                                d: Drafter.Draft, latency: int, later: int)
    ensures var st1 := Create(st, input, sub, traceId, now);
            var id := |st.tickets|;
            var n := |st.audit|;
            var a := Agent.TriageWrites(st1, id, traceId, cfg, c, kb, d, latency, later).audit;
            n + 2 <= |a| && a[..n] == st.audit && a[n] == CreatedEvent(id, traceId, now) &&
            a[n + 1].action == TriageStarted &&
            forall i :: n <= i < |a| ==> a[i].ticketId == id && a[i].traceId == traceId
  {
    var st1 := Create(st, input, sub, traceId, now);
    var id := |st.tickets|;
    var auto := cfg.autoCloseEnabled && c.confidence >= cfg.confidenceThreshold;
    Agent.TriageAuditEffect(st1, id, traceId, cfg, c, kb, d, latency, later);
    Agent.TriageTrailShape(id, traceId, c, Agent.ArticleIds(kb), d.citations, auto,
                           cfg.confidenceThreshold, d.draftReply, later);
    var a := Agent.TriageWrites(st1, id, traceId, cfg, c, kb, d, latency, later).audit;
    var trail := a[|st1.audit|..];
    assert a[|st.audit|] == a[..|st1.audit|][|st.audit|];
    assert a[|st.audit| + 1] == trail[0];
    forall i | |st.audit| <= i < |a| ensures a[i].ticketId == id && a[i].traceId == traceId {
      if i > |st.audit| {
        assert a[i] == trail[i - |st1.audit|];
      } else {
        assert a[i] == a[..|st1.audit|][i];
      }
    }
  }

  /** The triage started by creation classifies the submitted title and
      description. */
  lemma CreateThenTriageClassifies(st: Agent.State, input: Validation.CreateTicketInput, sub: string, traceId: string,
                                   now: int, cfg: Agent.Config, search: string -> seq<Article>, hour: int,
                                   latency: int, later: int)
    ensures var st1 := Create(st, input, sub, traceId, now);
            var res := Agent.Triage(st1, |st.tickets|, traceId, cfg, search, hour, latency, later);
            res.Ok? &&
            res.value.0.tickets[|st.tickets|].category ==
              Some(Classifier.Classify(input.title + " " + input.description.GetOr("")).predicted)
  {
  }

  // ------------------------------------------------------------------ list

  /** The query object of GET /: a status to match and an author to match,
      each only when set. */
  datatype TicketQuery = TicketQuery(status: Option<string>, createdBy: Option<string>)

  predicate Matches(t: Ticket, q: TicketQuery) {
    (q.status.Some? ==> StatusName(t.status) == q.status.value) &&
    (q.createdBy.Some? ==> t.createdBy == q.createdBy.value)
  }

  function NewestTicketFirst(r: Row): int {
    -r.ticket.createdAt
  }

  /** `find(q).sort({ createdAt: -1 })`. */
  function Query(tickets: seq<Ticket>, q: TicketQuery): seq<Row> {
    SortBy(Filter(Rows(tickets), (r: Row) => Matches(r.ticket, q)), NewestTicketFirst)
  }

  /** What the list route selects: a ticket with the given status, when a
      non-empty one is given, and authored by the caller, when `mine` is
      exactly "true". */
  predicate Selected(t: Ticket, status: Option<string>, mine: Option<string>, sub: string) {
    (status.Some? && status.value != "" ==> StatusName(t.status) == status.value) &&
    (mine == Some("true") ==> t.createdBy == sub)
  }

  /** GET /: builds the query field by field and runs it. The answer lists
      every selected ticket exactly once, with its id, and nothing else,
      newest first. */
  method ListTickets(s: Agent.Store, status: Option<string>, mine: Option<string>, sub: string)
    returns (list: seq<Row>)
    ensures forall k :: 0 <= k < |list| ==>
              list[k].id < |s.tickets| && s.tickets[list[k].id] == list[k].ticket &&
              Selected(list[k].ticket, status, mine, sub)
    ensures forall i :: 0 <= i < |s.tickets| && Selected(s.tickets[i], status, mine, sub) ==> Row(i, s.tickets[i]) in list
    ensures forall k, l :: 0 <= k < l < |list| ==> list[k].id != list[l].id
    ensures SortedBy(list, NewestTicketFirst)
  {
    var q := TicketQuery(None, None);
    if status.Some? && status.value != "" {
      q := q.(status := status);
    }
    if mine == Some("true") {
      q := q.(createdBy := Some(sub));
    }
    list := Query(s.tickets, q);
    QuerySelects(s.tickets, q, status, mine, sub);
  }

  /** A query that matches exactly the selected tickets lists each of them
      once, with its id, and nothing else, newest first. */
  lemma QuerySelects(tickets: seq<Ticket>, q: TicketQuery, status: Option<string>, mine: Option<string>, sub: string)
    requires q.status == (if status.Some? && status.value != "" then status else None)
    requires q.createdBy == (if mine == Some("true") then Some(sub) else None)
    ensures var list := Query(tickets, q);
            (forall k :: 0 <= k < |list| ==>
               list[k].id < |tickets| && tickets[list[k].id] == list[k].ticket &&
               Selected(list[k].ticket, status, mine, sub)) &&
            (forall i :: 0 <= i < |tickets| && Selected(tickets[i], status, mine, sub) ==> Row(i, tickets[i]) in list) &&
            (forall k, l :: 0 <= k < l < |list| ==> list[k].id != list[l].id) &&
            SortedBy(list, NewestTicketFirst)
  {
    assert forall t :: Matches(t, q) <==> Selected(t, status, mine, sub);
    QueryRows(tickets, q);
    QueryDistinct(tickets, q);
  }

  /** The rows of a query are stored rows that match it, and every stored
      row that matches is among them. */
  lemma QueryRows(tickets: seq<Ticket>, q: TicketQuery)
    ensures var list := Query(tickets, q);
            (forall k :: 0 <= k < |list| ==>
               list[k].id < |tickets| && tickets[list[k].id] == list[k].ticket && Matches(list[k].ticket, q)) &&
            forall i :: 0 <= i < |tickets| && Matches(tickets[i], q) ==> Row(i, tickets[i]) in list
  {
    var rows := Rows(tickets);
    var kept := Filter(rows, (r: Row) => Matches(r.ticket, q));
    var list := Query(tickets, q);
    forall k | 0 <= k < |list|
      ensures list[k].id < |tickets| && tickets[list[k].id] == list[k].ticket && Matches(list[k].ticket, q)
    {
      assert list[k] in multiset(list);
      assert list[k] in multiset(kept);
      FilterMembership(rows, (r: Row) => Matches(r.ticket, q), list[k]);
      var m :| 0 <= m < |rows| && rows[m] == list[k];
    }
    forall i | 0 <= i < |tickets| && Matches(tickets[i], q) ensures Row(i, tickets[i]) in list {
      assert rows[i] == Row(i, tickets[i]);
      FilterMembership(rows, (r: Row) => Matches(r.ticket, q), rows[i]);
      assert rows[i] in multiset(kept);
      assert rows[i] in multiset(list);
    }
  }

  /** Each stored row appears at most once among the rows. */
  lemma {:induction false} RowsOnce(tickets: seq<Ticket>, x: Row)
    ensures multiset(Rows(tickets))[x] <= 1
    decreases |tickets|
  {
    if |tickets| > 0 {
      var init := tickets[..|tickets| - 1];
      RowsOnce(init, x);
      assert Rows(tickets) == Rows(init) + [Row(|init|, tickets[|init|])];
      if x == Row(|init|, tickets[|init|]) {
        assert x !in Rows(init);
      }
    }
  }

  /** An element at two positions occurs at least twice. */
  lemma TwiceCounted<T>(s: seq<T>, k: nat, l: nat)
    requires k < l < |s| && s[k] == s[l]
    ensures multiset(s)[s[k]] >= 2
  {
    assert s == s[..l] + [s[l]] + s[l + 1..];
    assert s[k] in s[..l];
  }

  /** No ticket is listed twice. */
  lemma QueryDistinct(tickets: seq<Ticket>, q: TicketQuery)
    ensures var list := Query(tickets, q);
            forall k, l :: 0 <= k < l < |list| ==> list[k].id != list[l].id
  {
    var list := Query(tickets, q);
    QueryRows(tickets, q);
    forall k, l | 0 <= k < l < |list| ensures list[k].id != list[l].id {
      if list[k].id == list[l].id {
        assert list[k] == list[l];
        TwiceCounted(list, k, l);
        RowsOnce(tickets, list[k]);
      }
    }
  }

  /** Without a status and without `mine`, every ticket is listed. */
  lemma ListEverything(tickets: seq<Ticket>, sub: string)
    ensures forall i :: 0 <= i < |tickets| ==> Selected(tickets[i], None, None, sub)
  {
  }

  // ------------------------------------------------------------------- get

  /** GET /:id: the ticket, or a 404 the route sends itself. */
  function GetTicket(tickets: seq<Ticket>, id: nat): (r: Result<Row, Response>)
    ensures r.Ok? <==> id < |tickets|
    ensures r.Ok? ==> r.value.id == id && r.value.ticket == tickets[id]
    ensures r.Err? ==> r.error.status == 404 && r.error.body == ErrorBody(TicketNotFound)
  {
    if id < |tickets| then Ok(Row(id, tickets[id])) else Err(Response(404, ErrorBody(TicketNotFound)))
  }

  // ----------------------------------------------------------------- reply

  /** The status the reply route sets: open when `reopen` is truthy,
      resolved otherwise. */
  function ReplyStatus(reopen: Option<Json>): Status {
    if Truthy(reopen) then Open else Resolved
  }

  /** `req.body.body || ''`. */
  function ReplyText(body: Option<Json>): Json {
    if Truthy(body) then body.value else JStr("")
  }

  /** The REPLY_SENT event, by an agent. */
  function ReplyEvent(id: nat, traceId: string, body: Json, now: int): AuditEvent {
    AuditEvent(id, traceId, AgentActor, ReplySent, ReplySentMeta(ReplyText(Validation.Get(body, "body"))), now)
  }

  /** POST /:id/reply on the contents `st`, with request body `body`. */
  function ReplyRoute(st: Agent.State, id: nat, body: Json, traceId: string, now: int): Result<Agent.State, Response> {
    if id >= |st.tickets| then Err(Response(404, ErrorBody(ReplyNotFound)))
    else
      Ok(st.(tickets := st.tickets[id := st.tickets[id].(status := ReplyStatus(Validation.Get(body, "reopen")))],
             audit := st.audit + [ReplyEvent(id, traceId, body, now)]))
  }

  /** POST /:id/reply: sets the status, saves, logs REPLY_SENT and answers
      with the ticket. */
  method ReplyToTicket(s: Agent.Store, id: nat, body: Json, traceId: string, now: int) returns (r: Result<Row, Response>)
    modifies s
    ensures var res := ReplyRoute(old(s.Snapshot()), id, body, traceId, now);
            (res.Ok? ==> s.Snapshot() == res.value && r == Ok(Row(id, s.tickets[id]))) &&
            (res.Err? ==> s.Snapshot() == old(s.Snapshot()) && r == Err(res.error))
  {
    if id >= |s.tickets| {
      return Err(Response(404, ErrorBody(ReplyNotFound)));
    }
    var t := s.tickets[id];
    if Truthy(Validation.Get(body, "reopen")) {
      t := t.(status := Open);
    } else {
      t := t.(status := Resolved);
    }
    s.tickets := s.tickets[id := t];
    s.AppendAudit(ReplyEvent(id, traceId, body, now));
    r := Ok(Row(id, t));
  }

  /** A reply to a missing ticket answers 404 "Not found" and changes nothing. */
  lemma ReplyMissing(st: Agent.State, id: nat, body: Json, traceId: string, now: int)
    requires id >= |st.tickets|
    ensures ReplyRoute(st, id, body, traceId, now) == Err(Response(404, ErrorBody(ReplyNotFound)))
  {
  }

  /** A reply sets the ticket open when `reopen` is truthy and resolved
      otherwise, whatever its status was; nothing else in the ticket or in
      the other tickets changes, no reply row is stored, and exactly one
      REPLY_SENT is logged, by an agent, carrying the body or "" when it is
      falsy. */
  lemma ReplyTransition(st: Agent.State, id: nat, body: Json, traceId: string, now: int)
    requires id < |st.tickets|
    ensures var res := ReplyRoute(st, id, body, traceId, now);
            res.Ok? &&
            var st', t, t' := res.value, st.tickets[id], res.value.tickets[id];
            |st'.tickets| == |st.tickets| &&
            (t'.status == Open <==> Truthy(Validation.Get(body, "reopen"))) &&
            (t'.status != Open ==> t'.status == Resolved) &&
            t' == t.(status := t'.status) &&
            (forall j :: 0 <= j < |st.tickets| && j != id ==> st'.tickets[j] == st.tickets[j]) &&
            st'.replies == st.replies && st'.suggestions == st.suggestions &&
            |st'.audit| == |st.audit| + 1 && st'.audit[..|st.audit|] == st.audit &&
            st'.audit[|st.audit|].action == ReplySent && st'.audit[|st.audit|].actor == AgentActor &&
            st'.audit[|st.audit|].meta == ReplySentMeta(
              if Truthy(Validation.Get(body, "body")) then Validation.Get(body, "body").value else JStr(""))
  {
  }

  // ---------------------------------------------------------------- assign

  /** How the assign handler ends: with the updated contents and the ticket,
      with a response it sends itself, or with an exception it throws. */
  datatype AssignOutcome =
    | AssignDone(st: Agent.State, row: Row)
    | AssignRefused(response: Response)
    | AssignThrew(error: Error)

  /** What `validate(AssignTicketSchema)` stores in `req.valid`: the schema
      declares only `body`, and parsing drops the other keys of its input,
      the path parameters among them. */
  function ValidatedAssign(input: Validation.AssignInput): Json {
    JObj([("body", JObj([("assignee", JStr(input.assignee))]))])
  }

  /** The exception of reading `id` from an undefined `req.valid.params`. */
  const UndefinedParams: Error := Error("TypeError", "Cannot read properties of undefined (reading 'id')", NoCode, None, "")

  /** POST /:id/assign with the id taken from the path: 404 when the ticket
      is missing, otherwise the assignee is set and ASSIGNED is logged. */
  function Assign(st: Agent.State, id: nat, input: Validation.AssignInput, traceId: string, now: int): AssignOutcome {
    if id >= |st.tickets| then AssignRefused(Response(404, ErrorBody(TicketNotFound)))
    else
      var t := st.tickets[id].(assignee := Some(input.assignee));
      AssignDone(st.(tickets := st.tickets[id := t],
                     audit := st.audit + [AuditEvent(id, traceId, AgentActor, Assigned, AssignedMeta(input.assignee), now)]),
                 Row(id, t))
  }

  /** POST /:id/assign as written: the id is read from `req.valid.params`,
      and only when that is defined does the lookup by id take place. */
  function AssignAsWritten(st: Agent.State, id: nat, input: Validation.AssignInput, traceId: string,
                           now: int): AssignOutcome {
    var params := Validation.Get(ValidatedAssign(input), "params");
    if params.None? then AssignThrew(UndefinedParams)
    else Assign(st, id, input, traceId, now)
  }

  /** As written, every assignment throws before the update, even of a
      ticket that exists: nothing is assigned and nothing is logged. */
  lemma AssignAsWrittenThrows(st: Agent.State, id: nat, input: Validation.AssignInput, traceId: string, now: int)
    ensures AssignAsWritten(st, id, input, traceId, now) == AssignThrew(UndefinedParams)
  {
    assert ValidatedAssign(input).fields[0].0 != "params";
  }

  /** The discrepancy on a store with one ticket: assigning it succeeds with
      the path id and throws as written. */
  lemma AssignCounterexample(t: Ticket, assignee: string)
    ensures var st := Agent.State([t], [], [], []);
            Assign(st, 0, Validation.AssignInput(assignee), "trace", 0).AssignDone? &&
            AssignAsWritten(st, 0, Validation.AssignInput(assignee), "trace", 0).AssignThrew?
  {
    AssignAsWrittenThrows(Agent.State([t], [], [], []), 0, Validation.AssignInput(assignee), "trace", 0);
  }

  /** The corrected route: assigning an existing ticket changes only its
      assignee and logs exactly one ASSIGNED naming the assignee; a missing
      ticket answers 404 and changes nothing. */
  lemma AssignEffect(st: Agent.State, id: nat, input: Validation.AssignInput, traceId: string, now: int)
    ensures var o := Assign(st, id, input, traceId, now);
            (id >= |st.tickets| ==> o == AssignRefused(Response(404, ErrorBody(TicketNotFound)))) &&
            (id < |st.tickets| ==>
               o.AssignDone? && o.row.id == id &&
               |o.st.tickets| == |st.tickets| &&
               o.st.tickets[id].assignee == Some(input.assignee) &&
               o.st.tickets[id] == st.tickets[id].(assignee := o.st.tickets[id].assignee) &&
               (forall j :: 0 <= j < |st.tickets| && j != id ==> o.st.tickets[j] == st.tickets[j]) &&
               o.st.suggestions == st.suggestions && o.st.replies == st.replies &&
               |o.st.audit| == |st.audit| + 1 && o.st.audit[..|st.audit|] == st.audit &&
               o.st.audit[|st.audit|].action == Assigned &&
               o.st.audit[|st.audit|].meta == AssignedMeta(input.assignee))
  {
  }

  /** POST /:id/assign, corrected: the ticket is looked up by the path id. */
  method AssignTicket(s: Agent.Store, id: nat, input: Validation.AssignInput, traceId: string, now: int)
    returns (r: Result<Row, Response>)
    modifies s
    ensures var o := Assign(old(s.Snapshot()), id, input, traceId, now);
            (o.AssignDone? ==> s.Snapshot() == o.st && r == Ok(o.row)) &&
            (o.AssignRefused? ==> s.Snapshot() == old(s.Snapshot()) && r == Err(o.response))
  {
    if id >= |s.tickets| {
      return Err(Response(404, ErrorBody(TicketNotFound)));
    }
    var t := s.tickets[id].(assignee := Some(input.assignee));
    s.tickets := s.tickets[id := t];
    s.AppendAudit(AuditEvent(id, traceId, AgentActor, Assigned, AssignedMeta(input.assignee), now));
    r := Ok(Row(id, t));
  }
}
