# Smart helpdesk: a Dafny model of the triage server's core

This project models the server side of the smart helpdesk. That covers the
triage service (the keyword classifier, the reply drafter, and the
triage/agent-reply/regeneration operations over a store), the retry loop with
exponential backoff, the idempotency guard, the request validators, the error
handler, the authentication and role gates, the ticket routes and the audit
listing. The database is an in-memory store: a class with four sequences
(`tickets`, `suggestions`, `replies`, and an append-only `audit`). The id of a
stored row is its position.

Modules, one per source file, plus shared ones:

- `Wrappers`, `Json`, `Errors`, `Domain`: the Option/Result wrappers, JSON
  values, thrown errors (name, message, code, status, stack), and the stored
  entities with their closed vocabularies.
- `Text`: ASCII lower-casing, substring search, first-occurrence replacement
  (`String.replace` with a string pattern), decimal rendering and joining.
- `Sorting`: filter, a stable insertion sort by key, and limit. Together they
  stand for the database's `find(...).sort(...).limit(...)`.
- `Classifier`: `classifyHeuristic`. Confidence is in integer hundredths: 0.5
  is 50 and the 0.78 default threshold is 78.
- `Drafter`: the template table with its fallback, the greeting, the
  sequential placeholder substitution, and `draftReply`.
- `Agent`: `runTriage`, `sendAgentReply`, `regenerateSuggestion`,
  `getAgentSuggestion` and `getPendingSuggestions`. Each is a specification
  function over the store's contents, and the three writers are also methods
  of the `Store` class, proved against those functions.
- `Retry`: `withRetry` and the three named policies. The operation is a script
  `nat -> Attempt<T>` giving the outcome of each numbered call. A run reports
  its outcome, its number of calls, the delays it would sleep and the
  `onRetry` notifications.
- `Idempotency`: the guard's decision, the response capture into a map kept
  in a class, and the 24-hour sweep as a loop that deletes entries in place.
- `Validation`: every schema as a normaliser `Json -> Option<Input>`, with its
  defaults. The email and uuid format checks are parameters.
- `ErrorHandler`, `Auth`, `Rbac`: the error middleware and the two gates. The
  JWT verifier is a parameter.
- `TicketRoutes`, `AuditRoute`: the ticket routes (create, list, get, reply,
  assign) and the per-ticket audit listing.

The clock (`now`, the hour of the day), random ids (trace ids), the measured
latency and the full-text search are parameters. The search is a function from
a query to its ranked articles, and `retrieveKB` keeps the first three. Every
audit event written in one call carries the same timestamp `now`.

Where the code and its documentation disagree, the model follows the code:

- The audit listing is oldest first (`sort({ timestamp: 1 })`); it is not
  newest first.
- `appendAudit` has no guard, so an audit write is a plain append and no
  failure of it is swallowed.
- An `other` prediction has confidence exactly 0.5, whatever the counts.

## Model

| member | source | states |
|---|---|---|
| Text.Lower | server/src/services/agent.js:18 | the lower-cased text has the same length, and each character maps by the ASCII case mapping |
| Text.IndexOf | server/src/services/agent.js:19-21 | the position found is an occurrence with no earlier occurrence, and none means the pattern occurs nowhere |
| Text.ReplaceFirst | server/src/services/agent.js:155-157 | without an occurrence the string is unchanged; otherwise exactly the first occurrence is replaced |
| Text.NatToStringRoundTrip | server/src/services/agent.js:49-50 | the article number printed in decimal reads back as the same number |
| Text.Take | server/src/services/agent.js:52 | `substring(0, n)` keeps a prefix of length min(n, length) |
| Text.Utf16Length | server/src/schemas/validation.js:22 | the JavaScript length of a string counts two code units for each astral character and one for any other, so it lies between the number of characters and twice that |
| Text.Utf16LengthBmp | server/src/schemas/validation.js:22 | without astral characters the JavaScript length is the number of characters |
| Text.Utf16LengthAstral | server/src/schemas/validation.js:22 | a string of astral characters only has twice as many code units as characters |
| Sorting.FilterMembership | server/src/routes/audit.js:7 | an element is kept exactly when it is in the input and passes the filter |
| Sorting.FilterAppend | server/src/routes/audit.js:7 | filtering distributes over concatenation |
| Sorting.SortBy | server/src/routes/tickets.js:27 | the sort yields a permutation of its input that is ordered by key |
| Sorting.FilterKeepsOrder | server/src/routes/audit.js:7 | when the kept elements already appear in key order, the filtered sequence is sorted |
| Sorting.SortSortedIsIdentity | server/src/routes/audit.js:7 | sorting an already sorted sequence changes nothing; this is the stability the model assumes for ties |
| Sorting.Limit | server/src/services/agent.js:228 | `limit(n)` keeps a prefix of exactly min(n, length) elements |
| Sorting.LimitDropsOnlyLater | server/src/services/agent.js:226-228 | on a sorted sequence, an element that `limit(n)` drops comes after a full prefix of n, with a key no smaller than the last one kept |
| Sorting.LimitOfSortedFilter | server/src/services/agent.js:225-228 | `find(filter).sort(key).limit(n)` keeps min(n, matches) elements and drops only matches whose key is no smaller than the last one kept |
| Classifier.CountMatches | server/src/services/agent.js:19-21 | at most one count per keyword |
| Classifier.CountZeroIffNone | server/src/services/agent.js:19-21 | a category's count is zero exactly when none of its keywords occurs |
| Classifier.Winner | server/src/services/agent.js:22-24 | billing wins ties with the others, tech wins ties with shipping, a later category needs a strictly larger count, and `other` wins exactly when every count is zero; the winning count is the maximum |
| Classifier.WinnerOfThree | server/src/services/agent.js:24 | the loop over the counts in declaration order computes that winner |
| Classifier.Classify | server/src/services/agent.js:25-26 | the confidence always lies in [50, 100] hundredths |
| Classifier.OtherIffNoKeyword | server/src/services/agent.js:16-27 | `other` is predicted exactly when no keyword occurs in the lower-cased text, with confidence exactly 50; otherwise the confidence is min(100, 50 + 15 * the winning count) |
| Classifier.CountKeywords | server/src/services/agent.js:19-21 | one counting loop yields exactly the number of keywords found |
| Classifier.ClassifyHeuristic | server/src/services/agent.js:16-27 | the counting loops and the winner loop compute the classification, with confidence in [50, 100] |
| Drafter.SelectParts | server/src/services/agent.js:76-138 | a (category, template) pair in the table gets its own template; any other pair gets `other.default` |
| Drafter.TemplateLookup | server/src/services/agent.js:137 | the looked-up text is the table's entry when it has one and `other.default` otherwise |
| Drafter.GetReplyTemplate | server/src/services/agent.js:137 | the template text for a (category, variant) pair; its table lookup and fallback are stated by TemplateLookup and SelectParts |
| Drafter.ShippingUrgentFallsBack | server/src/services/agent.js:137 | shipping+urgent falls back to `other.default`, which differs from the shipping default |
| Drafter.Greeting | server/src/services/agent.js:140-149 | "Hello," without personalisation; otherwise morning before 12, afternoon before 17, evening after |
| Drafter.Summary | server/src/services/agent.js:52 | a body of at most 150 characters is kept whole; a longer one gives its first 150 characters followed by "..." |
| Drafter.ArticleRefs | server/src/services/agent.js:49-54 | one reference per article, numbered from 1 in retrieval order |
| Drafter.BuildReplyFromTemplate | server/src/services/agent.js:151-186 | the step-by-step reassignment of `reply` equals the five sequential first-occurrence replacements (greeting, title, category, article section, closing section) |
| Drafter.RenderShape | server/src/services/agent.js:151-186 | on brace-free data, sequential replacement puts each value exactly in its own placeholder's place |
| Drafter.DraftReply | server/src/services/agent.js:68-73 | the citations are the article ids in retrieval order, and the article count and template are reported |
| Drafter.DraftShape | server/src/services/agent.js:42-74 | on brace-free data the draft is greeting, intro, title, article section, closing, in the selected template's order |
| Drafter.DraftWithoutArticles | server/src/services/agent.js:166-181 | without articles the draft carries the specialist paragraph and the 24-hour closing |
| Drafter.DraftWithArticles | server/src/services/agent.js:161-177 | with articles it carries their numbered references and the "mark as resolved" closing |
| Agent.RetrieveKB | server/src/services/agent.js:29-40 | exactly the first three articles of the search ranking, or the whole ranking when it has fewer |
| Agent.ArticleIds | server/src/services/agent.js:367-375 | the suggestion's article ids are the retrieved ids in order |
| Agent.FirstFor | server/src/services/agent.js:310 | `findOne({ ticketId })` finds the earliest stored suggestion of the ticket, or none when it has none |
| Agent.GetAgentSuggestion | server/src/services/agent.js:194-210 | the stored suggestion when the id exists, and otherwise a 404 error "Agent suggestion not found" |
| Agent.Store.AppendAudit | server/src/services/agent.js:188-190 | one event is appended at the end of the log, and nothing else changes |
| Agent.Store.RunTriage | server/src/services/agent.js:347-405 | the store ends as the triage specification says, or unchanged with the 404 error |
| Agent.Store.RecordTriage | server/src/services/agent.js:354-400 | the writes of a run, in order: the progress events, the suggestion, the ticket, the reply and the closing events |
| Agent.Store.SendAgentReply | server/src/services/agent.js:237-290 | the store ends as the agent-reply specification says, or unchanged with its 404 |
| Agent.Store.RegenerateSuggestion | server/src/services/agent.js:292-345 | the store ends as the regeneration specification says, or unchanged with its 404 |
| Agent.Store.RecordRegeneration | server/src/services/agent.js:310-339 | the suggestion write and the SUGGESTION_UPDATED event; tickets and replies are unchanged |
| Agent.Triage | server/src/services/agent.js:347-405 | the reference definition of runTriage on the store's contents; its effects are stated by the Triage* lemmas below |
| Agent.AgentReply | server/src/services/agent.js:237-290 | the reference definition of sendAgentReply; its effects are stated by AgentReplyMissing and AgentReplyEffect |
| Agent.Regenerate | server/src/services/agent.js:292-345 | the reference definition of regenerateSuggestion; its effects are stated by the Regenerate* lemmas |
| Agent.Pending | server/src/services/agent.js:215-223 | a suggestion is listed when it is not auto-closed, meets a given non-zero minimum confidence, and is no older than a given non-zero maximum age |
| Agent.PendingSuggestions | server/src/services/agent.js:212-235 | the reference definition of getPendingSuggestions; its properties are stated by PendingShape, PendingNewest and PendingAllWhenFew |
| Agent.TriageMissingTicket | server/src/services/agent.js:351-352 | triage of a missing ticket fails with 404 "Ticket not found" before anything is written |
| Agent.TriageTicketEffect | server/src/services/agent.js:377-398 | the ticket gets the predicted category and the link to the new suggestion, and is resolved when auto, waiting for a human otherwise; other tickets are unchanged |
| Agent.TriageSuggestionEffect | server/src/services/agent.js:367-375 | exactly one suggestion is appended, for the ticket, with the classification, the article ids, the draft, autoClosed = auto and the model info |
| Agent.TriageReplyEffect | server/src/services/agent.js:379-397 | when auto, exactly one system reply carrying the draft is added; otherwise no reply is added |
| Agent.TriageTrailShape | server/src/services/agent.js:354-400 | the trail is TRIAGE_STARTED, AGENT_CLASSIFIED, KB_RETRIEVED, DRAFT_GENERATED, then AUTO_CLOSED and AUTO_REPLY_SENT or ASSIGNED_TO_HUMAN, then TRIAGE_COMPLETED, all for the ticket with the trace id and actor system |
| Agent.TriageAuditEffect | server/src/services/agent.js:354-400 | the earlier log is kept as it was, and the trail follows it |
| Agent.TriageOutcome | server/src/services/agent.js:356-365 | a successful run classifies the title and description, drafts from the retrieved articles, and decides auto = autoCloseEnabled and confidence >= threshold |
| Agent.TriageDraftUsesPriorCategory | server/src/services/agent.js:362-377 | the draft uses the template of the ticket's category before triage, not the predicted one |
| Agent.DefaultAutoCloseNeedsTwoKeywords | server/src/config.js:7-8 | under the defaults, triage closes by itself exactly when a category wins with at least two keywords |
| Agent.AgentReplyMissing | server/src/services/agent.js:240-248 | a missing suggestion or a missing ticket gives a 404 and no write |
| Agent.AgentReplyEffect | server/src/services/agent.js:250-284 | the reply is the custom text when it is non-empty and the draft otherwise; the ticket is resolved or left waiting for a human; AGENT_REPLY_SENT is logged, followed by TICKET_RESOLVED exactly when resolving |
| Agent.RegenerateKeepsTickets | server/src/services/agent.js:292-345 | regeneration, whether it succeeds or fails, changes neither the tickets nor the replies |
| Agent.RegenerateUpdatesFirst | server/src/services/agent.js:310-317 | the ticket's first suggestion is rewritten in place with promptVersion `v1-<template>`, and the other suggestions are unchanged |
| Agent.RegenerateCreates | server/src/services/agent.js:318-333 | with no suggestion for the ticket one is appended for it, with autoClosed false |
| Agent.RegenerateAuditOrder | server/src/services/agent.js:300-339 | SUGGESTION_REGENERATED is logged before SUGGESTION_UPDATED and after the earlier log |
| Agent.PendingShape | server/src/services/agent.js:212-235 | at most 50 results, newest first, each stored and non-auto-closed and meeting the confidence and age filters |
| Agent.PendingNewest | server/src/services/agent.js:225-228 | the list is min(50, pending) long, and a pending suggestion left out is no newer than the last one listed, so the 50 newest are listed |
| Agent.NegativeMaxAgeListsNothing | server/src/services/agent.js:220-222 | a negative maximum age puts the cutoff after now, so nothing created by now is listed |
| Agent.PendingAllWhenFew | server/src/services/agent.js:225-228 | when at most 50 suggestions are pending, all of them are listed, each as often as it is stored |
| Retry.Resolve | server/src/lib/retry.js:7-15 | each option left unset takes its default, and each one set is kept |
| Retry.WithRetry | server/src/lib/retry.js:19-53 | the attempt loop computes the run the recursive specification describes |
| Retry.RunFromShape | server/src/lib/retry.js:19-53 | from any attempt on, every non-final call failed retryably and was followed by its delay and its notification, and the last call's value or error ends the run unchanged |
| Retry.RunShape | server/src/lib/retry.js:19-53 | at most maxAttempts calls, and none when it is 0; one delay `min(base * factor^(k-1), maxDelay)` and one `onRetry(k, error)` per retried failure k; the first success returned or the last error rethrown |
| Retry.FirstSuccessReturned | server/src/lib/retry.js:21-27 | a success at call j after retryable failures returns that value after exactly j calls |
| Retry.RejectedFailureStops | server/src/lib/retry.js:31-34 | a failure the policy rejects is rethrown at once, after j calls and j-1 delays |
| Retry.AllFail | server/src/lib/retry.js:19-53 | all-retryable failures give exactly maxAttempts calls and maxAttempts-1 delays, and rethrow the last error itself |
| Retry.Defaults | server/src/lib/retry.js:7-15 | the defaults are 3 attempts, 1000 ms base, 10000 ms cap, factor 2, always retry |
| Retry.NamedPolicies | server/src/lib/retry.js:57-90 | database is 3/500, triage is 2/1000, and external is 3/2000 with an 8000 cap; the remaining fields take the defaults |
| Retry.NotFoundNotRetried | server/src/lib/retry.js:70-88 | the services' 404 errors are not retried by the triage or external policy |
| Retry.DatabaseRetries | server/src/lib/retry.js:60-66 | the database policy retries ECONNRESET, ETIMEDOUT and messages mentioning connection or timeout |
| Retry.TriageRetries | server/src/lib/retry.js:72-75 | the triage policy retries an error without a status, or with a status of at least 500 |
| Retry.ExternalRetries | server/src/lib/retry.js:82-87 | the external policy retries ECONNRESET, ETIMEDOUT and a status of at least 500 |
| Idempotency.Caller | server/src/middlewares/idempotency.js:45 | the caller's sub when it is present and non-empty, `anonymous` otherwise |
| Idempotency.Decide | server/src/middlewares/idempotency.js:18-52 | non-mutating methods pass through; without a key the request passes through, with a synthesised key exactly for ticket/triage paths; a malformed key is rejected; a cached key is replayed and an uncached one executes |
| Idempotency.Unexpired | server/src/middlewares/idempotency.js:7-15 | the sweep keeps exactly the entries at most 24 hours old, unchanged |
| Idempotency.Store.constructor | server/src/middlewares/idempotency.js:4 | the cache starts empty |
| Idempotency.Store.Capture | server/src/middlewares/idempotency.js:54-64 | the answer is stored under its key, with its status, its body and the time |
| Idempotency.Store.Serve | server/src/middlewares/idempotency.js:18-66 | only a request decided `Execute` (a valid key not yet cached) writes the cache, and it writes the handler's answer; a replayed or rejected request does not run the handler |
| Idempotency.Store.Sweep | server/src/middlewares/idempotency.js:7-15 | the deletion loop leaves exactly the unexpired entries |
| Idempotency.ReplayAfterCapture | server/src/middlewares/idempotency.js:46-66 | a repeated request after a capture is answered with the captured response |
| Idempotency.CaptureSurvivesDay | server/src/middlewares/idempotency.js:12 | a captured entry survives a sweep exactly within 24 hours of its capture |
| Idempotency.SweepIdempotent | server/src/middlewares/idempotency.js:7-15 | a second sweep at the same time removes nothing more |
| Idempotency.AnonymousWithoutCaller | server/src/middlewares/idempotency.js:45 | with no authenticated caller every cache key starts with `anonymous:` |
| Validation.ValidateRegister | server/src/schemas/validation.js:4-10 | accepted exactly when the name is 2-100, the email is well formed and the password is 6-100 code units; the values are kept |
| Validation.ValidateLogin | server/src/schemas/validation.js:12-17 | accepted exactly when the email is well formed and the password is non-empty; both are kept |
| Validation.ValidateCreateTicket | server/src/schemas/validation.js:20-25 | accepted exactly for a title of 1-200 code units, an optional description of at most 2000 and an optional category among the four; each value is the one submitted, and an absent field stays absent |
| Validation.ValidateReply | server/src/schemas/validation.js:28-33 | accepted exactly for a body of 1-2000 code units, which is kept; resolveTicket is true unless false is given |
| Validation.ValidateAssign | server/src/schemas/validation.js:35-39 | accepted exactly when the assignee is a 24-hex id |
| Validation.ValidateCreateArticle | server/src/schemas/validation.js:42-49 | accepted exactly for a title of 1-200 and a body of 1-10000 code units, at most 10 tags of at most 50 and a known status; title, body, tags and status are the submitted ones, the tags default to none and the status to draft |
| Validation.ValidateUpdateArticle | server/src/schemas/validation.js:51-61 | accepted exactly for a 24-hex id and body fields each optional with the creation bounds; the id and every present title, body, tags and status are the submitted ones, and an absent field stays absent |
| Validation.ValidateSearch | server/src/schemas/validation.js:63-67 | accepted exactly for an optional query of at most 200 code units, which is kept |
| Validation.ValidateConfigUpdate | server/src/schemas/validation.js:70-76 | accepted exactly for an optional boolean flag, an optional threshold in [0, 1] and optional SLA hours in [1, 168]; each present value is the submitted one and an absent one stays absent |
| Validation.ValidateTriage | server/src/schemas/validation.js:79-84 | accepted exactly for a 24-hex ticket id and an optional well-formed trace id; both are the submitted ones |
| Validation.ValidateAgentReply | server/src/schemas/validation.js:86-91 | accepted exactly for an optional custom reply of at most 2000 code units, which is the submitted text; resolveTicket is true unless false is given |
| Validation.ValidateRegenerate | server/src/schemas/validation.js:93-97 | the template is one of default, urgent and detailed, and default when absent |
| Validation.ValidateIdParam | server/src/schemas/validation.js:100-110 | accepted exactly when the id is 24 hex characters |
| Validation.IdFieldsAgree | server/src/schemas/validation.js:37-108 | every id field accepts exactly the same strings |
| Validation.ObjectIdExamples | server/src/schemas/validation.js:102 | a 24-hex id is accepted; a non-hex character or 23 characters is refused |
| Validation.UpdateBoundsMatchCreate | server/src/schemas/validation.js:42-61 | whatever creation accepts, the update accepts, with the same title and body |
| Validation.Defaults | server/src/schemas/validation.js:28-97 | absent fields take the defaults: resolveTicket true, tags none, status draft, template default |
| Validation.AstralTitleRefused | server/src/schemas/validation.js:22 | a title of 101 emoji has 202 code units and is refused, although it has only 101 characters |
| Validation.BmpBoundsCountCharacters | server/src/schemas/validation.js:22 | without astral characters a bound in code units is a bound in characters |
| ErrorHandler.Classify | server/src/middlewares/error.js:19-34 | ValidationError, then CastError, then code 11000, then a truthy status of the error's own, else 500 |
| ErrorHandler.Masked | server/src/middlewares/error.js:37-39 | a 500's message is replaced in production, and only then |
| ErrorHandler.Handle | server/src/middlewares/error.js:14-47 | once headers are sent the error is forwarded and there is no answer; otherwise the classification is answered |
| ErrorHandler.ErrorResponseBody | server/src/middlewares/error.js:41-46 | the answer body `{ ok: false, error: { message, stack? } }`; its shape is stated by BodyShape |
| ErrorHandler.BodyShape | server/src/middlewares/error.js:41-46 | every answer says ok false and carries a message, and carries a stack exactly in development |
| ErrorHandler.ServiceStatusReachesClient | server/src/middlewares/error.js:31-33 | the services' 404 errors reach the client as 404 with their own message |
| ErrorHandler.ProductionMasksInternal | server/src/middlewares/error.js:37-39 | in production every 500 answer says only "Internal server error" |
| ErrorHandler.DevelopmentShowsMessage | server/src/middlewares/error.js:31-39 | in development a status-500 error shows its own message |
| ErrorHandler.ValidationPrecedes | server/src/middlewares/error.js:22-24 | the ValidationError rule wins over every other |
| ErrorHandler.StatusRange | server/src/middlewares/error.js:19-34 | the status is 400, 409, 500 or the error's own |
| Auth.BearerToken | server/src/middlewares/auth.js:4-5 | a token exists exactly when the header starts with `Bearer ` and has more after it, and the token is that rest |
| Auth.RequireAuth | server/src/middlewares/auth.js:3-14 | no token gives 401 "Missing token"; a refused token gives 401 "Invalid token"; the request is admitted exactly when the verifier accepts the token, with its payload as the user |
| Auth.TokenRoundTrip | server/src/middlewares/auth.js:5 | the token written after `Bearer ` is the one verified |
| Auth.MissingTokenCases | server/src/middlewares/auth.js:4-6 | a missing header, a bare `Bearer ` and a lower-case scheme all count as a missing token |
| Rbac.RequireRole | server/src/middlewares/rbac.js:1-6 | next is called exactly when there is a caller whose role is allowed; otherwise the answer is 403 "Forbidden" |
| Rbac.NobodyWithoutRoles | server/src/middlewares/rbac.js:2-4 | an empty role list forbids everyone, and a missing caller is always forbidden |
| Rbac.MoreRolesAdmitMore | server/src/middlewares/rbac.js:2-5 | allowing more roles never forbids an admitted caller |
| TicketRoutes.Rows | server/src/routes/tickets.js:27 | the stored tickets paired with their ids, in storage order |
| TicketRoutes.Create | server/src/routes/tickets.js:14-18 | the reference definition of creation: the new ticket appended and its TICKET_CREATED event logged; stated by CreateEffect |
| TicketRoutes.PostTicket | server/src/routes/tickets.js:14-21 | stores the ticket and its TICKET_CREATED event and answers 201 with the new ticket |
| TicketRoutes.CreateEffect | server/src/routes/tickets.js:15-18 | exactly one ticket is added, open, by the caller, from the validated fields; the log gains exactly TICKET_CREATED by the user under the trace id |
| TicketRoutes.CreateThenTriage | server/src/routes/tickets.js:17-19 | once the triage started by creation runs, the log holds TICKET_CREATED followed by that run's TRIAGE_STARTED, with the same trace id and ticket |
| TicketRoutes.CreateThenTriageClassifies | server/src/routes/tickets.js:14-19 | that triage classifies the submitted title and description |
| TicketRoutes.ListTickets | server/src/routes/tickets.js:23-29 | lists exactly the selected tickets (by status when one is given, by the caller only for `mine=true`), each once, newest first |
| TicketRoutes.Query | server/src/routes/tickets.js:27 | the reference definition of `find(filter).sort({ createdAt: -1 })`; stated by QueryRows, QueryDistinct and QuerySelects |
| TicketRoutes.QuerySelects | server/src/routes/tickets.js:24-27 | the conditionally built query matches exactly the selected tickets |
| TicketRoutes.QueryRows | server/src/routes/tickets.js:27 | the query's rows are stored rows that match, and every matching row is among them |
| TicketRoutes.QueryDistinct | server/src/routes/tickets.js:27 | no ticket is listed twice |
| TicketRoutes.ListEverything | server/src/routes/tickets.js:24-27 | without filters every ticket is selected |
| TicketRoutes.GetTicket | server/src/routes/tickets.js:31-37 | the ticket when it exists, and otherwise 404 "Ticket not found" |
| TicketRoutes.ReplyToTicket | server/src/routes/tickets.js:39-46 | the store ends as the reply route specifies, or unchanged with its 404 |
| TicketRoutes.ReplyRoute | server/src/routes/tickets.js:39-46 | the reference definition of the reply route; stated by ReplyMissing and ReplyTransition |
| TicketRoutes.ReplyMissing | server/src/routes/tickets.js:40-41 | a reply to a missing ticket answers 404 "Not found" and writes nothing |
| TicketRoutes.ReplyTransition | server/src/routes/tickets.js:42-44 | open when reopen is truthy and resolved otherwise, whatever the previous status; REPLY_SENT by an agent with the body or '' |
| TicketRoutes.AssignAsWritten | server/src/routes/tickets.js:48-49 | reading the id from the validated params throws before any lookup |
| TicketRoutes.AssignAsWrittenThrows | server/src/routes/tickets.js:48-49 | as written, every assignment throws the TypeError, whatever the store |
| TicketRoutes.AssignCounterexample | server/src/routes/tickets.js:48-55 | on a store with one ticket, the corrected route assigns it where the route as written throws |
| TicketRoutes.Assign | server/src/routes/tickets.js:48-55 | the reference definition of the corrected assign route; stated by AssignEffect |
| TicketRoutes.AssignEffect | server/src/routes/tickets.js:49-54 | 404 "Ticket not found" when missing; otherwise only the assignee changes and ASSIGNED names it |
| TicketRoutes.AssignTicket | server/src/routes/tickets.js:48-55 | the corrected route: the store ends as the corrected specification says |
| AuditRoute.ListAudit | server/src/routes/audit.js:6-9 | only the ticket's events, every one of them with no limit, in ascending timestamp order, and nothing changes |
| AuditRoute.TicketLog | server/src/routes/audit.js:7 | the reference definition of `find({ ticketId }).sort({ timestamp: 1 })`; stated by the TicketLog* lemmas |
| AuditRoute.TicketLogShape | server/src/routes/audit.js:7 | the listing holds the ticket's events only, as a permutation of the filtered log, sorted ascending |
| AuditRoute.TicketLogComplete | server/src/routes/audit.js:7 | every event logged for the ticket is listed |
| AuditRoute.NoEventsEmpty | server/src/routes/audit.js:7 | a ticket without events gets an empty listing |
| AuditRoute.TicketLogInWriteOrder | server/src/routes/audit.js:7 | with a clock that never runs backwards, the listing is exactly the events in the order they were written |
| AuditRoute.OtherTicketsIgnored | server/src/routes/audit.js:7 | events of other tickets do not change a ticket's listing |
| Errors.NotFound | server/src/services/agent.js:203 | the services' not-found error: name Error, status 404, the given message |

## Left out

- Search ranking: MongoDB's `$text` ranking is a parameter (`search`). Only "the first three of the ranking" is modelled.
- Agent.PendingSuggestions: the `ticketId.category` filter is not modelled. Applied to a populated path, its result depends on the database's semantics.
- Retries around the services: each service operation models one attempt inside `withRetry`. A retried attempt re-executes the writes made before its failure, which the model does not show. The loop itself is modelled on its own in `Retry`.
- Concurrency: creation starts triage without waiting for it, and that is shown only as sequential composition (`CreateThenTriage`). Races between triage and regeneration, and concurrent requests with the same idempotency key, are not modelled.
- Time: the current hour, `Date.now()`, `setTimeout` sleeps and the ten-minute `setInterval` are parameters or left out. A run reports the delays it would sleep.
- Numbers: confidences and thresholds are integer hundredths with exact arithmetic. IEEE rounding of `0.5 + max * 0.15` is not modelled. Configuration numbers are reals.
- Strings: lower-casing is ASCII only. `String.replace` is modelled as plain first-occurrence replacement, without its `$` replacement patterns.
- Drafter.Summary: `length` and `substring(0, 150)` are counted in characters, not UTF-16 code units. The two agree on text without astral characters (Text.Utf16LengthBmp). A body with astral characters is cut at a different place, and a cut that splits a surrogate pair cannot be expressed on `seq<char>`. Text.Take states the same limit. The validators do count code units.
- TicketRoutes.ListTickets: the status filter is modelled as one string. Express parses `?status=a&status=b` into an array, which the database matches as "any of", and `?status[op]=x` into an object of query operators; neither is modelled.
- Drafter.DraftShape: the placeholder-by-placeholder form of the draft is proved only when the title and article texts hold no `{`. On other inputs the draft is still defined by the sequential replacement.
- Ids: stored rows are identified by their position, so malformed ids are not modelled. That covers the CastError of an invalid ObjectId and the reply route's unvalidated path id.
- Validation: the email and uuid format checks are parameters. The error answers shaped by `middlewares/validate.js` are not part of this model; a refused input is `None`.
- Logging by the error handler and the retry loop, and `operationName`, are left out.
- `populate` and `lean` are left out, and the Ticket model is not part of this model. A new ticket is taken to start open. Route answers are the stored rows, not their JSON encoding.
- Sort ties: the database's order for equal keys is unspecified. The model sorts stably, keeping storage order.
- Truthiness of `NaN` is not modelled: a number is truthy when it is non-zero. So a `maxAge` or `minConfidence` that `parseInt`/`parseFloat` cannot read is taken as absent.
- TicketRoutes.AssignAsWritten: the model stops at the thrown TypeError. The handler is `async` and no wrapper forwards its rejection. Under Express 4 the request then gets no answer until the request timeout or the client gives up; only Express 5 would pass the error to ErrorHandler and answer 500. The Express version is not part of this model.
- The request parsing of `routes/agent.js` and `routes/kb.js` is not part of this model. That includes regeneration finding its ticket through a given suggestion.
- The remaining server files are left out: rate limiting, request timeouts, JWT signing, the auth routes, the configuration route, seeding and database bootstrap. They are library configuration or I/O.
- All client code is left out.

## Findings

| source | as written | input that shows it | evidently intended | confidence | as-written member | corrected member |
|---|---|---|---|---|---|---|
| server/src/routes/tickets.js:48-49 | the handler reads `req.valid.params.id`, but the assign schema (server/src/schemas/validation.js:35-39) declares only `body`, so `req.valid.params` is undefined and reading `id` throws a TypeError before any update | POST /tickets/:id/assign for an existing ticket with a valid 24-hex assignee | look the ticket up by the path id, set only its assignee, log ASSIGNED, and answer 404 when it is missing | not executed | TicketRoutes.AssignAsWritten (TicketRoutes.AssignAsWrittenThrows, TicketRoutes.AssignCounterexample) | TicketRoutes.Assign (TicketRoutes.AssignEffect, TicketRoutes.AssignTicket) |
