/** The stored entities of the helpdesk: tickets, agent suggestions, replies,
    knowledge-base articles and audit events, with the closed vocabularies they
    use. Identifiers of stored rows are their positions in storage order. */
module Domain {
  import opened Wrappers
  import Json

  datatype Category = Billing | Tech | Shipping | Other

  function CategoryName(c: Category): string {
    match c
    case Billing => "billing"
    case Tech => "tech"
    case Shipping => "shipping"
    case Other => "other"
  }

  datatype Status = Open | Triaged | WaitingHuman | Resolved | Closed

  function StatusName(s: Status): string {
    match s
    case Open => "open"
    case Triaged => "triaged"
    case WaitingHuman => "waiting_human"
    case Resolved => "resolved"
    case Closed => "closed"
  }

  /** Who caused an audit event or wrote a reply. */
  datatype Actor = SystemActor | UserActor | AgentActor

  /** The closed vocabulary of audit actions. */
  datatype Action =
    | TicketCreated | TriageStarted | AgentClassified | KbRetrieved | DraftGenerated
    | AutoClosed | AutoReplySent | AssignedToHuman | TriageCompleted
    | SuggestionRegenerated | SuggestionUpdated | AgentReplySent | TicketResolved
    | ReplySent | Assigned

  function ActionName(a: Action): string {
    match a
    case TicketCreated => "TICKET_CREATED"
    case TriageStarted => "TRIAGE_STARTED"
    case AgentClassified => "AGENT_CLASSIFIED"
    case KbRetrieved => "KB_RETRIEVED"
    case DraftGenerated => "DRAFT_GENERATED"
    case AutoClosed => "AUTO_CLOSED"
    case AutoReplySent => "AUTO_REPLY_SENT"
    case AssignedToHuman => "ASSIGNED_TO_HUMAN"
    case TriageCompleted => "TRIAGE_COMPLETED"
    case SuggestionRegenerated => "SUGGESTION_REGENERATED"
    case SuggestionUpdated => "SUGGESTION_UPDATED"
    case AgentReplySent => "AGENT_REPLY_SENT"
    case TicketResolved => "TICKET_RESOLVED"
    case ReplySent => "REPLY_SENT"
    case Assigned => "ASSIGNED"
  }

  /** The verified token payload of a caller. */
  datatype Principal = Principal(sub: string, role: string)

  datatype Article = Article(id: string, title: string, body: string, tags: seq<string>)

  datatype Ticket = Ticket(
    title: string,
    description: Option<string>,
    category: Option<Category>,
    status: Status,
    createdBy: string,
    assignee: Option<string>,
    agentSuggestionId: Option<nat>,
    createdAt: int)

  datatype ModelInfo = ModelInfo(provider: string, model: string, promptVersion: string, latencyMs: int)

  /** Confidence is kept in integer hundredths (0.78 is 78). */
  datatype Suggestion = Suggestion(
    ticketId: nat,
    predictedCategory: Category,
    articleIds: seq<string>,
    draftReply: string,
    confidence: nat,
    autoClosed: bool,
    modelInfo: ModelInfo,
    createdAt: int)

  datatype Reply = Reply(
    ticketId: nat,
    author: Option<string>,
    authorType: Actor,
    body: string,
    isAutoGenerated: bool,
    agentSuggestionId: nat)

  /** The structured metadata each kind of audit event carries. */
  datatype Meta =
    | NoMeta
    | ClassifiedMeta(predictedCategory: Category, confidence: nat)
    | KbRetrievedMeta(articleIds: seq<string>)
    | DraftGeneratedMeta(citations: seq<string>)
    | AutoClosedMeta(confidence: nat, threshold: nat)
    | AutoReplySentMeta(replyBody: string)
    | AgentReplySentMeta(replyId: nat, suggestionId: nat, customReply: bool, resolved: bool)
    | TicketResolvedMeta(resolvedBy: string, suggestionId: nat)
    | SuggestionUpdatedMeta(suggestionId: nat, template: string, confidence: nat)
    | ReplySentMeta(body: Json.Json)
    | AssignedMeta(assignee: string)

  datatype AuditEvent = AuditEvent(
    ticketId: nat,
    traceId: string,
    actor: Actor,
    action: Action,
    meta: Meta,
    timestamp: int)

  /** The action tags of a sequence of events, in order. */
  function Actions(events: seq<AuditEvent>): (r: seq<Action>)
    ensures |r| == |events|
    ensures forall i :: 0 <= i < |events| ==> r[i] == events[i].action
  {
    seq(|events|, i requires 0 <= i < |events| => events[i].action)
  }
}
