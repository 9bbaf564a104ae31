/** The triage service (services/agent.js) over an in-memory store: triage of a
    new ticket, an agent's reply to a suggestion, regeneration of a suggestion,
    and the two suggestion queries. Each state-changing operation is a method
    of `Store` proved equal to a function on the store's contents, and the
    properties the service promises are lemmas about those functions. The
    clock, the hour of day, the search engine and the measured latency are
    parameters. */
module Agent {
  import opened Wrappers
  import opened Errors
  import opened Domain
  import opened Sorting
  import Classifier
  import Drafter
  import Text

  /** The settings triage reads; confidence threshold in hundredths. */
  datatype Config = Config(autoCloseEnabled: bool, confidenceThreshold: nat, stubMode: bool)

  /** The built-in defaults: auto-close on, threshold 0.78, stub mode on. */
  const DefaultConfig: Config := Config(true, 78, true)

  const TicketNotFound: string := "Ticket not found"
  const SuggestionNotFound: string := "Agent suggestion not found"

  /** The contents of the store. */
  datatype State = State(tickets: seq<Ticket>, suggestions: seq<Suggestion>, replies: seq<Reply>, audit: seq<AuditEvent>)

  /** The text classified and searched for a ticket: its title, a space and its
      description, or nothing when it has none. */
  function TriageText(t: Ticket): string {
    t.title + " " + t.description.GetOr("")
  }

  /** retrieveKB: the three best-ranked articles of the full-text search
      `search`, whose ranking is not modelled. */
  function RetrieveKB(search: string -> seq<Article>, query: string): (r: seq<Article>)
    ensures r == search(query)[..if |search(query)| <= 3 then |search(query)| else 3]
  {
    Limit(search(query), 3)
  }

  function ArticleIds(kb: seq<Article>): (r: seq<string>)
    ensures |r| == |kb| && forall i :: 0 <= i < |kb| ==> r[i] == kb[i].id
  {
    seq(|kb|, i requires 0 <= i < |kb| => kb[i].id)
  }

  /** Whether triage closes the ticket itself. */
  predicate Auto(cfg: Config, confidence: nat) {
    cfg.autoCloseEnabled && confidence >= cfg.confidenceThreshold
  }

  function Provider(cfg: Config): string {
    if cfg.stubMode then "stub" else "llm"
  }

  function ModelName(cfg: Config): string {
    if cfg.stubMode then "heuristic" else "unknown"
  }

  // ---------------------------------------------------------------- triage

  /** The audit events of one successful triage run, in order. */
  function TriageTrail(ticketId: nat, traceId: string, c: Classifier.Classification, kbIds: seq<string>,
                       citations: seq<string>, auto: bool, threshold: nat, body: string, now: int): seq<AuditEvent> {
    [AuditEvent(ticketId, traceId, SystemActor, TriageStarted, NoMeta, now),
     AuditEvent(ticketId, traceId, SystemActor, AgentClassified, ClassifiedMeta(c.predicted, c.confidence), now),
     AuditEvent(ticketId, traceId, SystemActor, KbRetrieved, KbRetrievedMeta(kbIds), now),
     AuditEvent(ticketId, traceId, SystemActor, DraftGenerated, DraftGeneratedMeta(citations), now)]
    + (if auto then
         [AuditEvent(ticketId, traceId, SystemActor, AutoClosed, AutoClosedMeta(c.confidence, threshold), now),
          AuditEvent(ticketId, traceId, SystemActor, AutoReplySent, AutoReplySentMeta(body), now)]
       else [AuditEvent(ticketId, traceId, SystemActor, AssignedToHuman, NoMeta, now)])
    + [AuditEvent(ticketId, traceId, SystemActor, TriageCompleted, NoMeta, now)]
  }

  /** The log after a triage run: `audit` with the events appended one at a
      time, as the run writes them. */
  function TriageLog(audit: seq<AuditEvent>, ticketId: nat, traceId: string, c: Classifier.Classification,
                     kbIds: seq<string>, citations: seq<string>, auto: bool, threshold: nat, body: string,
                     now: int): (r: seq<AuditEvent>)
    ensures r == audit + TriageTrail(ticketId, traceId, c, kbIds, citations, auto, threshold, body, now)
  {
    var a4 := audit + [AuditEvent(ticketId, traceId, SystemActor, TriageStarted, NoMeta, now)]
                    + [AuditEvent(ticketId, traceId, SystemActor, AgentClassified, ClassifiedMeta(c.predicted, c.confidence), now)]
                    + [AuditEvent(ticketId, traceId, SystemActor, KbRetrieved, KbRetrievedMeta(kbIds), now)]
                    + [AuditEvent(ticketId, traceId, SystemActor, DraftGenerated, DraftGeneratedMeta(citations), now)];
    var a6 := if auto then
                a4 + [AuditEvent(ticketId, traceId, SystemActor, AutoClosed, AutoClosedMeta(c.confidence, threshold), now)]
                   + [AuditEvent(ticketId, traceId, SystemActor, AutoReplySent, AutoReplySentMeta(body), now)]
              else a4 + [AuditEvent(ticketId, traceId, SystemActor, AssignedToHuman, NoMeta, now)];
    a6 + [AuditEvent(ticketId, traceId, SystemActor, TriageCompleted, NoMeta, now)]
  }

  /** The ticket after triage: the predicted category, the link to its
      suggestion and the new status. */
  function TriagedTicket(t: Ticket, predicted: Category, suggestionId: nat, auto: bool): Ticket {
    t.(category := Some(predicted), agentSuggestionId := Some(suggestionId),
       status := if auto then Resolved else WaitingHuman)
  }

  /** The writes of a triage run of ticket `ticketId` once it has been
      classified as `c`, the articles `kb` retrieved and the reply `d`
      drafted; the new suggestion's id is the number of suggestions before. */
  function TriageWrites(st: State, ticketId: nat, traceId: string, cfg: Config, c: Classifier.Classification,
                        kb: seq<Article>, d: Drafter.Draft, latency: int, now: int): State
    requires ticketId < |st.tickets|
  {
    var auto := Auto(cfg, c.confidence);
    var sid := |st.suggestions|;
    State(st.tickets[ticketId := TriagedTicket(st.tickets[ticketId], c.predicted, sid, auto)],
          st.suggestions + [Suggestion(ticketId, c.predicted, ArticleIds(kb), d.draftReply, c.confidence, auto,
                                       ModelInfo(Provider(cfg), ModelName(cfg), "v1", latency), now)],
          st.replies + (if auto then [Reply(ticketId, None, SystemActor, d.draftReply, true, sid)] else []),
          TriageLog(st.audit, ticketId, traceId, c, ArticleIds(kb), d.citations, auto,
                    cfg.confidenceThreshold, d.draftReply, now))
  }

  /** runTriage on the contents `st`, with `latency` the measured duration and
      `now` the time of the writes. The draft is made from the ticket as it is
      before triage. */
  function Triage(st: State, ticketId: nat, traceId: string, cfg: Config, search: string -> seq<Article>,
                  hour: int, latency: int, now: int): Result<(State, nat), Error> {
    if ticketId >= |st.tickets| then Err(NotFound(TicketNotFound))
    else
      var t := st.tickets[ticketId];
      var kb := RetrieveKB(search, TriageText(t));
      Ok((TriageWrites(st, ticketId, traceId, cfg, Classifier.Classify(TriageText(t)), kb,
                       Drafter.DraftReply(t, kb, Drafter.DefaultTemplate, true, hour), latency, now),
          |st.suggestions|))
  }

  // ------------------------------------------------------------ agent reply

  /** The audit events of an agent reply. */
  function AgentReplyTrail(ticketId: nat, traceId: string, agentId: string, replyId: nat, suggestionId: nat,
                           custom: bool, resolveTicket: bool, now: int): seq<AuditEvent> {
    [AuditEvent(ticketId, traceId, AgentActor, AgentReplySent, AgentReplySentMeta(replyId, suggestionId, custom, resolveTicket), now)]
    + (if resolveTicket then [AuditEvent(ticketId, traceId, AgentActor, TicketResolved, TicketResolvedMeta(agentId, suggestionId), now)]
       else [])
  }

  /** sendAgentReply on the contents `st`. */
  function AgentReply(st: State, suggestionId: nat, agentId: string, customReply: Option<string>,
                      traceId: string, resolveTicket: bool, now: int): Result<(State, nat), Error> {
    if suggestionId >= |st.suggestions| then Err(NotFound(SuggestionNotFound))
    else
      var s := st.suggestions[suggestionId];
      if s.ticketId >= |st.tickets| then Err(NotFound(TicketNotFound))
      else
        var custom := customReply.Some? && customReply.value != "";
        var body := if custom then customReply.value else s.draftReply;
        var rid := |st.replies|;
        var t := st.tickets[s.ticketId];
        Ok((State(st.tickets[s.ticketId := t.(status := if resolveTicket then Resolved else WaitingHuman)],
                  st.suggestions,
                  st.replies + [Reply(s.ticketId, Some(agentId), AgentActor, body, false, suggestionId)],
                  st.audit + AgentReplyTrail(s.ticketId, traceId, agentId, rid, suggestionId, custom, resolveTicket, now)),
            rid))
  }

  // ----------------------------------------------------------- regenerate

  /** `findOne({ ticketId })`: the first suggestion of the ticket in storage
      order. */
  function FirstFor(sugs: seq<Suggestion>, ticketId: nat): (r: Option<nat>)
    ensures r.Some? ==> r.value < |sugs| && sugs[r.value].ticketId == ticketId &&
                        forall j :: 0 <= j < r.value ==> sugs[j].ticketId != ticketId
    ensures r.None? ==> forall j :: 0 <= j < |sugs| ==> sugs[j].ticketId != ticketId
    decreases |sugs|
  {
    if |sugs| == 0 then None
    else
      var init := sugs[..|sugs| - 1];
      assert forall j :: 0 <= j < |init| ==> init[j] == sugs[j];
      var f := FirstFor(init, ticketId);
      if f.Some? then f
      else if sugs[|sugs| - 1].ticketId == ticketId then Some(|sugs| - 1)
      else None
  }

  function PromptVersion(template: Drafter.TemplateName): string {
    "v1-" + Drafter.TemplateNameText(template)
  }

  /** An existing suggestion rewritten by regeneration; its ticket, its
      auto-closed flag, its creation time, provider, model and latency stay. */
  function Regenerated(s: Suggestion, c: Classifier.Classification, ids: seq<string>, body: string,
                       template: Drafter.TemplateName): Suggestion {
    s.(predictedCategory := c.predicted, articleIds := ids, draftReply := body, confidence := c.confidence,
       modelInfo := s.modelInfo.(promptVersion := PromptVersion(template)))
  }

  /** The suggestion writes of a regeneration for ticket `ticketId`
      classified as `c`, with article ids `ids` and draft `body`: the first
      suggestion of the ticket is rewritten in place, or a new one is added.
      Also gives the id of the suggestion written. */
  function RegenerateWrites(sugs: seq<Suggestion>, ticketId: nat, template: Drafter.TemplateName, cfg: Config,
                            c: Classifier.Classification, ids: seq<string>, body: string, now: int): (seq<Suggestion>, nat) {
    var existing := FirstFor(sugs, ticketId);
    if existing.Some? then (sugs[existing.value := Regenerated(sugs[existing.value], c, ids, body, template)], existing.value)
    else (sugs + [Suggestion(ticketId, c.predicted, ids, body, c.confidence, false,
                             ModelInfo(Provider(cfg), ModelName(cfg), PromptVersion(template), 0), now)], |sugs|)
  }

  /** The log after a regeneration that wrote suggestion `sid`. */
  function RegenerateLog(audit: seq<AuditEvent>, ticketId: nat, traceId: string, template: Drafter.TemplateName,
                         sid: nat, confidence: nat, now: int): seq<AuditEvent> {
    audit + [AuditEvent(ticketId, traceId, AgentActor, SuggestionRegenerated, NoMeta, now)]
          + [AuditEvent(ticketId, traceId, AgentActor, SuggestionUpdated,
                        SuggestionUpdatedMeta(sid, Drafter.TemplateNameText(template), confidence), now)]
  }

  /** regenerateSuggestion on the contents `st`. */
  function Regenerate(st: State, ticketId: nat, traceId: string, template: Drafter.TemplateName, cfg: Config,
                      search: string -> seq<Article>, hour: int, now: int): Result<(State, nat), Error> {
    if ticketId >= |st.tickets| then Err(NotFound(TicketNotFound))
    else
      var t := st.tickets[ticketId];
      var c := Classifier.Classify(TriageText(t));
      var kb := RetrieveKB(search, TriageText(t));
      var w := RegenerateWrites(st.suggestions, ticketId, template, cfg, c, ArticleIds(kb),
                                Drafter.DraftReply(t, kb, template, true, hour).draftReply, now);
      Ok((st.(suggestions := w.0, audit := RegenerateLog(st.audit, ticketId, traceId, template, w.1, c.confidence, now)),
          w.1))
  }

  // -------------------------------------------------------------- queries

  /** getAgentSuggestion. */
  function GetAgentSuggestion(st: State, suggestionId: nat): (r: Result<Suggestion, Error>)
    ensures suggestionId < |st.suggestions| <==> r.Ok?
    ensures r.Ok? ==> r.value == st.suggestions[suggestionId]
    ensures r.Err? ==> r.error == NotFound(SuggestionNotFound)
  {
    if suggestionId < |st.suggestions| then Ok(st.suggestions[suggestionId])
    else Err(NotFound(SuggestionNotFound))
  }

  /** The filters of getPendingSuggestions other than the category: a minimum
      confidence in hundredths and a maximum age in hours, each ignored when
      absent or zero. The age is whatever integer `parseInt` gives, so it may
      be negative, which puts the cutoff after `now`. */
  datatype PendingFilters = PendingFilters(minConfidence: Option<int>, maxAgeHours: Option<int>)

  predicate Pending(s: Suggestion, f: PendingFilters, now: int) {
    !s.autoClosed &&
    (f.minConfidence.Some? && f.minConfidence.value != 0 ==> s.confidence >= f.minConfidence.value) &&
    (f.maxAgeHours.Some? && f.maxAgeHours.value != 0 ==> s.createdAt >= now - f.maxAgeHours.value * 60 * 60 * 1000)
  }

  function NewestFirst(s: Suggestion): int {
    -s.createdAt
  }

  const PendingLimit: nat := 50

  /** getPendingSuggestions: the matching suggestions, newest first, at most 50. */
  function PendingSuggestions(sugs: seq<Suggestion>, f: PendingFilters, now: int): seq<Suggestion> {
    Limit(SortBy(Filter(sugs, s => Pending(s, f, now)), NewestFirst), PendingLimit)
  }

  // ---------------------------------------------------------------- store

  /** The in-memory store with its four collections; the audit sequence only
      ever grows. */
  class Store {
    var tickets: seq<Ticket>
    var suggestions: seq<Suggestion>
    var replies: seq<Reply>
    var audit: seq<AuditEvent>

    constructor (st: State)
      ensures Snapshot() == st
    {
      tickets, suggestions, replies, audit := st.tickets, st.suggestions, st.replies, st.audit;
    }

    function Snapshot(): State
      reads this
    {
      State(tickets, suggestions, replies, audit)
    }

    /** appendAudit: one event at the end of the log, nothing else changes. */
    method AppendAudit(e: AuditEvent)
      modifies this
      ensures audit == old(audit) + [e]
      ensures tickets == old(tickets) && suggestions == old(suggestions) && replies == old(replies)
    {
      audit := audit + [e];
    }

    /** runTriage: looks the ticket up, classifies it, retrieves the articles,
        drafts the reply and records the outcome. */
    method RunTriage(ticketId: nat, traceId: string, cfg: Config, search: string -> seq<Article>,
                     hour: int, latency: int, now: int) returns (r: Result<nat, Error>)
      modifies this
      ensures var res := Triage(old(Snapshot()), ticketId, traceId, cfg, search, hour, latency, now);
              (res.Ok? ==> Snapshot() == res.value.0 && r == Ok(res.value.1)) &&
              (res.Err? ==> Snapshot() == old(Snapshot()) && r == Err(res.error))
    {
      if ticketId >= |tickets| {
        return Err(NotFound(TicketNotFound));
      }
      var t := tickets[ticketId];
      var c := Classifier.ClassifyHeuristic(TriageText(t));
      var kb := RetrieveKB(search, TriageText(t));
      var d := Drafter.DraftReply(t, kb, Drafter.DefaultTemplate, true, hour);
      var sid := RecordTriage(ticketId, traceId, cfg, c, kb, d, latency, now);
      r := Ok(sid);
    }

    /** The writes of runTriage in the order it makes them: the four progress
        events, the suggestion, the ticket's category, link and status (with
        the automatic reply when it closes the ticket), the outcome events and
        the completion event. */
    method RecordTriage(ticketId: nat, traceId: string, cfg: Config, c: Classifier.Classification,
                        kb: seq<Article>, d: Drafter.Draft, latency: int, now: int) returns (sid: nat)
      requires ticketId < |tickets|
      modifies this
      ensures Snapshot() == TriageWrites(old(Snapshot()), ticketId, traceId, cfg, c, kb, d, latency, now)
      ensures sid == old(|suggestions|)
    {
      var t := tickets[ticketId];
      AppendAudit(AuditEvent(ticketId, traceId, SystemActor, TriageStarted, NoMeta, now));
      AppendAudit(AuditEvent(ticketId, traceId, SystemActor, AgentClassified, ClassifiedMeta(c.predicted, c.confidence), now));
      AppendAudit(AuditEvent(ticketId, traceId, SystemActor, KbRetrieved, KbRetrievedMeta(ArticleIds(kb)), now));
      AppendAudit(AuditEvent(ticketId, traceId, SystemActor, DraftGenerated, DraftGeneratedMeta(d.citations), now));
      var auto := cfg.autoCloseEnabled && c.confidence >= cfg.confidenceThreshold;
      sid := |suggestions|;
      suggestions := suggestions + [Suggestion(ticketId, c.predicted, ArticleIds(kb), d.draftReply, c.confidence, auto,
                                               ModelInfo(Provider(cfg), ModelName(cfg), "v1", latency), now)];
      var updated := t.(category := Some(c.predicted), agentSuggestionId := Some(sid));
      if auto {
        updated := updated.(status := Resolved);
        replies := replies + [Reply(ticketId, None, SystemActor, d.draftReply, true, sid)];
        AppendAudit(AuditEvent(ticketId, traceId, SystemActor, AutoClosed, AutoClosedMeta(c.confidence, cfg.confidenceThreshold), now));
        AppendAudit(AuditEvent(ticketId, traceId, SystemActor, AutoReplySent, AutoReplySentMeta(d.draftReply), now));
      } else {
        updated := updated.(status := WaitingHuman);
        AppendAudit(AuditEvent(ticketId, traceId, SystemActor, AssignedToHuman, NoMeta, now));
      }
      tickets := tickets[ticketId := updated];
      AppendAudit(AuditEvent(ticketId, traceId, SystemActor, TriageCompleted, NoMeta, now));
    }

    /** sendAgentReply. */
    method SendAgentReply(suggestionId: nat, agentId: string, customReply: Option<string>, traceId: string,
                          resolveTicket: bool, now: int) returns (r: Result<nat, Error>)
      modifies this
      ensures var res := AgentReply(old(Snapshot()), suggestionId, agentId, customReply, traceId, resolveTicket, now);
              (res.Ok? ==> Snapshot() == res.value.0 && r == Ok(res.value.1)) &&
              (res.Err? ==> Snapshot() == old(Snapshot()) && r == Err(res.error))
    {
      if suggestionId >= |suggestions| {
        return Err(NotFound(SuggestionNotFound));
      }
      var s := suggestions[suggestionId];
      if s.ticketId >= |tickets| {
        return Err(NotFound(TicketNotFound));
      }
      var t := tickets[s.ticketId];
      var custom := customReply.Some? && customReply.value != "";
      var body := if custom then customReply.value else s.draftReply;
      var rid := |replies|;
      replies := replies + [Reply(s.ticketId, Some(agentId), AgentActor, body, false, suggestionId)];
      if resolveTicket {
        t := t.(status := Resolved);
      } else {
        t := t.(status := WaitingHuman);
      }
      tickets := tickets[s.ticketId := t];
      ghost var a0 := audit;
      AppendAudit(AuditEvent(s.ticketId, traceId, AgentActor, AgentReplySent,
                             AgentReplySentMeta(rid, suggestionId, custom, resolveTicket), now));
      if resolveTicket {
        AppendAudit(AuditEvent(s.ticketId, traceId, AgentActor, TicketResolved, TicketResolvedMeta(agentId, suggestionId), now));
      }
      assert audit == a0 + AgentReplyTrail(s.ticketId, traceId, agentId, rid, suggestionId, custom, resolveTicket, now);
      r := Ok(rid);
    }

    /** regenerateSuggestion: looks the ticket up, logs the regeneration,
        classifies, retrieves and drafts with the chosen template, and records
        the suggestion. */
    method RegenerateSuggestion(ticketId: nat, traceId: string, template: Drafter.TemplateName, cfg: Config,
                                search: string -> seq<Article>, hour: int, now: int) returns (r: Result<nat, Error>)
      modifies this
      ensures var res := Regenerate(old(Snapshot()), ticketId, traceId, template, cfg, search, hour, now);
              (res.Ok? ==> Snapshot() == res.value.0 && r == Ok(res.value.1)) &&
              (res.Err? ==> Snapshot() == old(Snapshot()) && r == Err(res.error))
    {
      if ticketId >= |tickets| {
        return Err(NotFound(TicketNotFound));
      }
      var t := tickets[ticketId];
      AppendAudit(AuditEvent(ticketId, traceId, AgentActor, SuggestionRegenerated, NoMeta, now));
      var c := Classifier.ClassifyHeuristic(TriageText(t));
      var kb := RetrieveKB(search, TriageText(t));
      var d := Drafter.DraftReply(t, kb, template, true, hour);
      var sid := RecordRegeneration(ticketId, traceId, template, cfg, c, ArticleIds(kb), d.draftReply, now);
      r := Ok(sid);
    }

    /** The suggestion write of regenerateSuggestion and its closing event. */
    method RecordRegeneration(ticketId: nat, traceId: string, template: Drafter.TemplateName, cfg: Config,
                              c: Classifier.Classification, ids: seq<string>, body: string, now: int) returns (sid: nat)
      modifies this
      ensures (suggestions, sid) == RegenerateWrites(old(suggestions), ticketId, template, cfg, c, ids, body, now)
      ensures audit == old(audit) + [AuditEvent(ticketId, traceId, AgentActor, SuggestionUpdated,
                                                SuggestionUpdatedMeta(sid, Drafter.TemplateNameText(template), c.confidence), now)]
      ensures tickets == old(tickets) && replies == old(replies)
    {
      var existing := FirstFor(suggestions, ticketId);
      if existing.Some? {
        sid := existing.value;
        suggestions := suggestions[sid := Regenerated(suggestions[sid], c, ids, body, template)];
      } else {
        sid := |suggestions|;
        suggestions := suggestions + [Suggestion(ticketId, c.predicted, ids, body, c.confidence, false,
                                                 ModelInfo(Provider(cfg), ModelName(cfg), PromptVersion(template), 0), now)];
      }
      AppendAudit(AuditEvent(ticketId, traceId, AgentActor, SuggestionUpdated,
                             SuggestionUpdatedMeta(sid, Drafter.TemplateNameText(template), c.confidence), now));
    }
  }

  // ------------------------------------------------------ triage properties

  /** runTriage of a missing ticket fails with a 404 before anything is
      written. */
  lemma TriageMissingTicket(st: State, ticketId: nat, traceId: string, cfg: Config, search: string -> seq<Article>,
                            hour: int, latency: int, now: int)
    requires ticketId >= |st.tickets|
    ensures var res := Triage(st, ticketId, traceId, cfg, search, hour, latency, now);
            res.Err? && res.error.status == Some(404) && res.error.message == TicketNotFound
  {
  }

  /** The triaged ticket gets the predicted category, the link to the new
      suggestion and status resolved exactly when triage closes it itself,
      waiting_human otherwise; its other fields and every other ticket stay. */
  lemma TriageTicketEffect(st: State, ticketId: nat, traceId: string, cfg: Config, c: Classifier.Classification,
                           kb: seq<Article>, d: Drafter.Draft, latency: int, now: int)
    requires ticketId < |st.tickets|
    ensures var w := TriageWrites(st, ticketId, traceId, cfg, c, kb, d, latency, now);
            var t, t' := st.tickets[ticketId], w.tickets[ticketId];
            |w.tickets| == |st.tickets| &&
            t'.category == Some(c.predicted) && t'.agentSuggestionId == Some(|st.suggestions|) &&
            (t'.status == Resolved <==> cfg.autoCloseEnabled && c.confidence >= cfg.confidenceThreshold) &&
            (t'.status != Resolved ==> t'.status == WaitingHuman) &&
            t'.title == t.title && t'.description == t.description && t'.createdBy == t.createdBy &&
            t'.assignee == t.assignee && t'.createdAt == t.createdAt &&
            forall j :: 0 <= j < |st.tickets| && j != ticketId ==> w.tickets[j] == st.tickets[j]
  {
  }

  /** Triage appends one suggestion, for the ticket, with the classification,
      the retrieved article ids and the draft, marked auto-closed exactly when
      triage closes the ticket; earlier suggestions stay. */
  lemma TriageSuggestionEffect(st: State, ticketId: nat, traceId: string, cfg: Config, c: Classifier.Classification,
                               kb: seq<Article>, d: Drafter.Draft, latency: int, now: int)
    requires ticketId < |st.tickets|
    ensures var w := TriageWrites(st, ticketId, traceId, cfg, c, kb, d, latency, now);
            var n := |st.suggestions|;
            |w.suggestions| == n + 1 && w.suggestions[..n] == st.suggestions &&
            w.suggestions[n].ticketId == ticketId && w.suggestions[n].predictedCategory == c.predicted &&
            w.suggestions[n].confidence == c.confidence && w.suggestions[n].draftReply == d.draftReply &&
            |w.suggestions[n].articleIds| == |kb| &&
            (forall i :: 0 <= i < |kb| ==> w.suggestions[n].articleIds[i] == kb[i].id) &&
            (w.suggestions[n].autoClosed <==> cfg.autoCloseEnabled && c.confidence >= cfg.confidenceThreshold)
  {
  }

  /** When triage closes the ticket it adds exactly one reply: the draft, by
      the system, marked auto-generated and linked to the new suggestion.
      Otherwise it adds no reply. */
  lemma TriageReplyEffect(st: State, ticketId: nat, traceId: string, cfg: Config, c: Classifier.Classification,
                          kb: seq<Article>, d: Drafter.Draft, latency: int, now: int)
    requires ticketId < |st.tickets|
    ensures var w := TriageWrites(st, ticketId, traceId, cfg, c, kb, d, latency, now);
            var n := |st.replies|;
            var auto := cfg.autoCloseEnabled && c.confidence >= cfg.confidenceThreshold;
            (auto ==> |w.replies| == n + 1 && w.replies[..n] == st.replies &&
                      w.replies[n].ticketId == ticketId && w.replies[n].author.None? &&
                      w.replies[n].authorType == SystemActor && w.replies[n].body == d.draftReply &&
                      w.replies[n].isAutoGenerated && w.replies[n].agentSuggestionId == |st.suggestions|) &&
            (!auto ==> w.replies == st.replies)
  {
  }

  /** The trail of one run names, in order, TRIAGE_STARTED, AGENT_CLASSIFIED,
      KB_RETRIEVED, DRAFT_GENERATED, then AUTO_CLOSED and AUTO_REPLY_SENT or
      ASSIGNED_TO_HUMAN, then TRIAGE_COMPLETED, each for the ticket, under the
      trace id and by the system. */
  lemma TriageTrailShape(ticketId: nat, traceId: string, c: Classifier.Classification, kbIds: seq<string>,
                         citations: seq<string>, auto: bool, threshold: nat, body: string, now: int)
    ensures var trail := TriageTrail(ticketId, traceId, c, kbIds, citations, auto, threshold, body, now);
            Actions(trail) == [TriageStarted, AgentClassified, KbRetrieved, DraftGenerated]
                              + (if auto then [AutoClosed, AutoReplySent] else [AssignedToHuman])
                              + [TriageCompleted] &&
            forall i :: 0 <= i < |trail| ==>
              trail[i].ticketId == ticketId && trail[i].traceId == traceId && trail[i].actor == SystemActor
  {
    var trail := TriageTrail(ticketId, traceId, c, kbIds, citations, auto, threshold, body, now);
    var expected := [TriageStarted, AgentClassified, KbRetrieved, DraftGenerated]
                    + (if auto then [AutoClosed, AutoReplySent] else [AssignedToHuman])
                    + [TriageCompleted];
    assert |Actions(trail)| == |expected|;
    forall i | 0 <= i < |trail| ensures Actions(trail)[i] == expected[i] { }
  }

  /** Triage keeps the log and appends the trail of the run, with
      AUTO_CLOSED and AUTO_REPLY_SENT exactly when it closes the ticket. */
  lemma TriageAuditEffect(st: State, ticketId: nat, traceId: string, cfg: Config, c: Classifier.Classification,
                          kb: seq<Article>, d: Drafter.Draft, latency: int, now: int)
    requires ticketId < |st.tickets|
    ensures var w := TriageWrites(st, ticketId, traceId, cfg, c, kb, d, latency, now);
            var n := |st.audit|;
            var auto := cfg.autoCloseEnabled && c.confidence >= cfg.confidenceThreshold;
            n <= |w.audit| && w.audit[..n] == st.audit &&
            w.audit[n..] == TriageTrail(ticketId, traceId, c, ArticleIds(kb), d.citations, auto,
                                        cfg.confidenceThreshold, d.draftReply, now)
  {
    var w := TriageWrites(st, ticketId, traceId, cfg, c, kb, d, latency, now);
    var trail := TriageTrail(ticketId, traceId, c, ArticleIds(kb), d.citations, Auto(cfg, c.confidence),
                             cfg.confidenceThreshold, d.draftReply, now);
    assert w.audit == st.audit + trail;
  }

  /** A successful runTriage classifies the ticket's text: the ticket takes
      the predicted category and is closed exactly when auto-close is enabled
      and the confidence reaches the threshold; the answer is the new
      suggestion's id. */
  lemma TriageOutcome(st: State, ticketId: nat, traceId: string, cfg: Config, search: string -> seq<Article>,
                      hour: int, latency: int, now: int)
    requires ticketId < |st.tickets|
    ensures var res := Triage(st, ticketId, traceId, cfg, search, hour, latency, now);
            var c := Classifier.Classify(TriageText(st.tickets[ticketId]));
            res.Ok? && res.value.1 == |st.suggestions| &&
            |res.value.0.tickets| == |st.tickets| &&
            res.value.0.tickets[ticketId].category == Some(c.predicted) &&
            (res.value.0.tickets[ticketId].status == Resolved <==>
               cfg.autoCloseEnabled && c.confidence >= cfg.confidenceThreshold)
  {
  }

  /** The draft is made from the ticket before its category is set: when the
      title and the articles hold no brace, the suggestion's draft is the
      template selected by the ticket's prior category, whatever category
      triage predicts. */
  lemma TriageDraftUsesPriorCategory(st: State, ticketId: nat, traceId: string, cfg: Config,
                                     search: string -> seq<Article>, hour: int, latency: int, now: int)
    requires ticketId < |st.tickets|
    requires '{' !in st.tickets[ticketId].title
    requires var kb := RetrieveKB(search, TriageText(st.tickets[ticketId]));
             forall k :: 0 <= k < |kb| ==> '{' !in kb[k].title && '{' !in kb[k].body
    ensures var t := st.tickets[ticketId];
            var kb := RetrieveKB(search, TriageText(t));
            var p := Drafter.SelectParts(t.category, Drafter.DefaultTemplate);
            var res := Triage(st, ticketId, traceId, cfg, search, hour, latency, now);
            res.Ok? && |res.value.0.suggestions| == |st.suggestions| + 1 &&
            res.value.0.suggestions[|st.suggestions|].draftReply ==
              Drafter.Greeting(hour, true) + "\n\n" + p.intro + t.title + p.afterTitle
              + Drafter.ArticleSection(kb) + p.beforeClosing + Drafter.ClosingSection(|kb| > 0)
  {
    var t := st.tickets[ticketId];
    var kb := RetrieveKB(search, TriageText(t));
    Drafter.DraftShape(t, kb, Drafter.DefaultTemplate, true, hour);
  }

  /** With the default settings, triage closes a ticket itself exactly when
      some category wins with at least two distinct keywords. */
  lemma DefaultAutoCloseNeedsTwoKeywords(text: string)
    ensures var c := Classifier.Classify(text);
            var lower := Text.Lower(text);
            var max := Classifier.Max3(Classifier.CountMatches(lower, Classifier.BillingKeywords),
                                       Classifier.CountMatches(lower, Classifier.TechKeywords),
                                       Classifier.CountMatches(lower, Classifier.ShippingKeywords));
            Auto(DefaultConfig, c.confidence) <==> c.predicted != Other && max >= 2
  {
    Classifier.OtherIffNoKeyword(text);
  }

  // ------------------------------------------------- agent reply properties

  /** sendAgentReply fails with a 404 when the suggestion or its ticket is
      missing. */
  lemma AgentReplyMissing(st: State, suggestionId: nat, agentId: string, customReply: Option<string>,
                          traceId: string, resolveTicket: bool, now: int)
    ensures var res := AgentReply(st, suggestionId, agentId, customReply, traceId, resolveTicket, now);
            (suggestionId >= |st.suggestions| ==> res == Err(NotFound(SuggestionNotFound))) &&
            (suggestionId < |st.suggestions| && st.suggestions[suggestionId].ticketId >= |st.tickets| ==>
               res == Err(NotFound(TicketNotFound))) &&
            (res.Err? ==> res.error.status == Some(404))
  {
  }

  /** An agent reply sends the custom text when it is non-empty and the draft
      otherwise, authored by the agent and not auto-generated; the ticket
      becomes resolved or waiting_human as asked; the suggestions stay; and
      the log gains AGENT_REPLY_SENT, then TICKET_RESOLVED only when
      resolving. */
  lemma AgentReplyEffect(st: State, suggestionId: nat, agentId: string, customReply: Option<string>,
                         traceId: string, resolveTicket: bool, now: int)
    requires suggestionId < |st.suggestions| && st.suggestions[suggestionId].ticketId < |st.tickets|
    ensures var res := AgentReply(st, suggestionId, agentId, customReply, traceId, resolveTicket, now);
            var s := st.suggestions[suggestionId];
            var n, m := |st.replies|, |st.audit|;
            res.Ok? && res.value.1 == n &&
            var w := res.value.0;
            |w.tickets| == |st.tickets| &&
            w.tickets[s.ticketId].status == (if resolveTicket then Resolved else WaitingHuman) &&
            (forall j :: 0 <= j < |st.tickets| && j != s.ticketId ==> w.tickets[j] == st.tickets[j]) &&
            w.suggestions == st.suggestions &&
            |w.replies| == n + 1 && w.replies[..n] == st.replies &&
            w.replies[n].body == (if customReply.Some? && customReply.value != "" then customReply.value else s.draftReply) &&
            w.replies[n].author == Some(agentId) && w.replies[n].authorType == AgentActor &&
            !w.replies[n].isAutoGenerated && w.replies[n].agentSuggestionId == suggestionId &&
            m <= |w.audit| && w.audit[..m] == st.audit &&
            Actions(w.audit[m..]) == [AgentReplySent] + (if resolveTicket then [TicketResolved] else [])
  {
    var s := st.suggestions[suggestionId];
    var custom := customReply.Some? && customReply.value != "";
    var trail := AgentReplyTrail(s.ticketId, traceId, agentId, |st.replies|, suggestionId, custom, resolveTicket, now);
    var w := AgentReply(st, suggestionId, agentId, customReply, traceId, resolveTicket, now).value.0;
    assert w.audit[|st.audit|..] == trail;
  }

  // -------------------------------------------------- regenerate properties

  /** regenerateSuggestion never changes a ticket or a reply, whether it
      succeeds or not. */
  lemma RegenerateKeepsTickets(st: State, ticketId: nat, traceId: string, template: Drafter.TemplateName,
                               cfg: Config, search: string -> seq<Article>, hour: int, now: int)
    ensures var res := Regenerate(st, ticketId, traceId, template, cfg, search, hour, now);
            (res.Ok? ==> res.value.0.tickets == st.tickets && res.value.0.replies == st.replies) &&
            (res.Err? <==> ticketId >= |st.tickets|) &&
            (res.Err? ==> res.error == NotFound(TicketNotFound))
  {
  }

  /** When the ticket already has a suggestion, the first one is rewritten in
      place with the new classification, articles, draft and prompt version
      `v1-<template>`, keeping its ticket, auto-closed flag, creation time,
      provider and model; nothing else changes. */
  lemma RegenerateUpdatesFirst(sugs: seq<Suggestion>, ticketId: nat, template: Drafter.TemplateName, cfg: Config,
                               c: Classifier.Classification, ids: seq<string>, body: string, now: int, i: nat)
    requires i < |sugs| && sugs[i].ticketId == ticketId
    requires forall j :: 0 <= j < i ==> sugs[j].ticketId != ticketId
    ensures var w := RegenerateWrites(sugs, ticketId, template, cfg, c, ids, body, now);
            var s, s' := sugs[i], w.0[i];
            w.1 == i && |w.0| == |sugs| &&
            (forall j :: 0 <= j < |sugs| && j != i ==> w.0[j] == sugs[j]) &&
            s'.ticketId == ticketId && s'.predictedCategory == c.predicted && s'.confidence == c.confidence &&
            s'.articleIds == ids && s'.draftReply == body &&
            s'.modelInfo.promptVersion == "v1-" + Drafter.TemplateNameText(template) &&
            s'.autoClosed == s.autoClosed && s'.createdAt == s.createdAt &&
            s'.modelInfo.provider == s.modelInfo.provider && s'.modelInfo.model == s.modelInfo.model
  {
  }

  /** When the ticket has no suggestion, one is added for it, not auto-closed,
      with prompt version `v1-<template>` and latency 0. */
  lemma RegenerateCreates(sugs: seq<Suggestion>, ticketId: nat, template: Drafter.TemplateName, cfg: Config,
                          c: Classifier.Classification, ids: seq<string>, body: string, now: int)
    requires forall j :: 0 <= j < |sugs| ==> sugs[j].ticketId != ticketId
    ensures var w := RegenerateWrites(sugs, ticketId, template, cfg, c, ids, body, now);
            var n := |sugs|;
            w.1 == n && |w.0| == n + 1 && w.0[..n] == sugs &&
            w.0[n].ticketId == ticketId && !w.0[n].autoClosed && w.0[n].draftReply == body &&
            w.0[n].modelInfo.promptVersion == "v1-" + Drafter.TemplateNameText(template) &&
            w.0[n].modelInfo.latencyMs == 0 && w.0[n].createdAt == now
  {
  }

  /** A regeneration logs SUGGESTION_REGENERATED and then SUGGESTION_UPDATED
      naming the suggestion written, by an agent, and keeps the earlier log. */
  lemma RegenerateAuditOrder(audit: seq<AuditEvent>, ticketId: nat, traceId: string, template: Drafter.TemplateName,
                             sid: nat, confidence: nat, now: int)
    ensures var a := RegenerateLog(audit, ticketId, traceId, template, sid, confidence, now);
            var n := |audit|;
            |a| == n + 2 && a[..n] == audit &&
            Actions(a[n..]) == [SuggestionRegenerated, SuggestionUpdated] &&
            a[n + 1].meta.SuggestionUpdatedMeta? && a[n + 1].meta.suggestionId == sid &&
            a[n].actor == AgentActor && a[n + 1].actor == AgentActor
  {
    var a := RegenerateLog(audit, ticketId, traceId, template, sid, confidence, now);
    assert a[|audit|..] == [a[|audit|], a[|audit| + 1]];
  }

  // ---------------------------------------------------- query properties

  /** The pending list holds only pending suggestions, at most 50 of them,
      newest first. */
  lemma PendingShape(sugs: seq<Suggestion>, f: PendingFilters, now: int)
    ensures var r := PendingSuggestions(sugs, f, now);
            |r| <= PendingLimit && SortedBy(r, NewestFirst) &&
            forall i :: 0 <= i < |r| ==> r[i] in sugs && Pending(r[i], f, now)
  {
    var pending := Filter(sugs, s => Pending(s, f, now));
    var sorted := SortBy(pending, NewestFirst);
    var r := PendingSuggestions(sugs, f, now);
    forall i | 0 <= i < |r| ensures r[i] in sugs && Pending(r[i], f, now) {
      assert r[i] == sorted[i];
      assert r[i] in multiset(sorted);
      assert r[i] in multiset(pending);
      FilterMembership(sugs, s => Pending(s, f, now), r[i]);
    }
    forall i, j | 0 <= i < j < |r| ensures NewestFirst(r[i]) <= NewestFirst(r[j]) {
      assert r[i] == sorted[i] && r[j] == sorted[j];
    }
  }

  /** The list holds the 50 newest pending suggestions: it is 50 long when
      more are pending, and a pending suggestion left out is no newer than the
      last one listed. */
  lemma PendingNewest(sugs: seq<Suggestion>, f: PendingFilters, now: int)
    ensures var pending := Filter(sugs, s => Pending(s, f, now));
            var r := PendingSuggestions(sugs, f, now);
            |r| == (if |pending| <= PendingLimit then |pending| else PendingLimit) &&
            forall i :: 0 <= i < |sugs| && Pending(sugs[i], f, now) && sugs[i] !in r ==>
              |r| == PendingLimit && sugs[i].createdAt <= r[|r| - 1].createdAt
  {
    var keep := s => Pending(s, f, now);
    LimitOfSortedFilter(sugs, keep, NewestFirst, PendingLimit);
  }

  /** A negative maximum age lists nothing that was created by `now`. */
  lemma NegativeMaxAgeListsNothing(sugs: seq<Suggestion>, f: PendingFilters, now: int)
    requires f.maxAgeHours.Some? && f.maxAgeHours.value < 0
    requires forall i :: 0 <= i < |sugs| ==> sugs[i].createdAt <= now
    ensures PendingSuggestions(sugs, f, now) == []
  {
    var pending := Filter(sugs, s => Pending(s, f, now));
    if pending != [] {
      FilterMembership(sugs, s => Pending(s, f, now), pending[0]);
    }
  }

  /** When at most 50 suggestions are pending, every one of them is listed. */
  lemma PendingAllWhenFew(sugs: seq<Suggestion>, f: PendingFilters, now: int)
    requires |Filter(sugs, s => Pending(s, f, now))| <= PendingLimit
    ensures var r := PendingSuggestions(sugs, f, now);
            multiset(r) == multiset(Filter(sugs, s => Pending(s, f, now))) &&
            forall i :: 0 <= i < |sugs| && Pending(sugs[i], f, now) ==> sugs[i] in r
  {
    var pending := Filter(sugs, s => Pending(s, f, now));
    var r := PendingSuggestions(sugs, f, now);
    assert r == SortBy(pending, NewestFirst);
    forall i | 0 <= i < |sugs| && Pending(sugs[i], f, now) ensures sugs[i] in r {
      FilterMembership(sugs, s => Pending(s, f, now), sugs[i]);
      assert sugs[i] in multiset(pending);
      assert sugs[i] in multiset(r);
    }
  }
}
