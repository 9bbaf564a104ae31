/** The request schemas (schemas/validation.js) as pure validators. Each takes
    the parsed JSON of the request parts it inspects and either rejects them or
    returns the normalised input: its declared fields only (unknown keys are
    dropped) with the declared defaults filled in. The e-mail and UUID format
    checks are parameters. String bounds count UTF-16 code units, as zod's
    `min` and `max` do. */
module Validation {
  import opened Wrappers
  import opened Json
  import opened Domain
  import Drafter
  import opened Text

  predicate HexChar(c: char) {
    '0' <= c <= '9' || 'a' <= c <= 'f' || 'A' <= c <= 'F'
  }

  /** The id pattern `^[0-9a-fA-F]{24}$`. */
  predicate IsObjectId(s: string) {
    |s| == 24 && forall i :: 0 <= i < |s| ==> HexChar(s[i])
  }

  /** The value of `key` in an object; nothing for a non-object. */
  function Get(o: Json, key: string): (r: Option<Json>)
    ensures !o.JObj? ==> r.None?
  {
    if o.JObj? then Field(o.fields, key) else None
  }

  // What one field accepts. Lengths are JavaScript lengths (`Utf16Length`). `None` is an absent field (`undefined`); a
  // present `null` is a value of the wrong type.

  predicate StringWithin(v: Option<Json>, lo: nat, hi: nat) {
    v.Some? && v.value.JStr? && lo <= Utf16Length(v.value.s) <= hi
  }

  predicate OptionalStringWithin(v: Option<Json>, lo: nat, hi: nat) {
    v.None? || StringWithin(v, lo, hi)
  }

  predicate OptionalBoolean(v: Option<Json>) {
    v.None? || v.value.JBool?
  }

  predicate OptionalNumberWithin(v: Option<Json>, lo: real, hi: real) {
    v.None? || (v.value.JNum? && lo <= v.value.n <= hi)
  }

  predicate OptionalOneOf(v: Option<Json>, names: seq<string>) {
    v.None? || (v.value.JStr? && v.value.s in names)
  }

  predicate ObjectIdValue(v: Option<Json>) {
    v.Some? && v.value.JStr? && IsObjectId(v.value.s)
  }

  predicate FormattedString(v: Option<Json>, format: string -> bool) {
    v.Some? && v.value.JStr? && format(v.value.s)
  }

  /** At most 10 tags, each a string of at most 50 characters. */
  predicate TagList(items: seq<Json>) {
    |items| <= 10 && forall i :: 0 <= i < |items| ==> items[i].JStr? && Utf16Length(items[i].s) <= 50
  }

  predicate OptionalTags(v: Option<Json>) {
    v.None? || (v.value.JArr? && TagList(v.value.items))
  }

  // Parsers for one field: `None` rejects, `Some(x)` accepts with value `x`
  // (for an optional field, `Some(None)` is an absent one).

  function ParseString(v: Option<Json>, lo: nat, hi: nat): (r: Option<string>)
    ensures r.Some? <==> StringWithin(v, lo, hi)
    ensures r.Some? ==> v == Some(JStr(r.value))
  {
    match v
    case Some(JStr(s)) => if lo <= Utf16Length(s) <= hi then Some(s) else None
    case _ => None
  }

  function ParseOptionalString(v: Option<Json>, lo: nat, hi: nat): (r: Option<Option<string>>)
    ensures r.Some? <==> OptionalStringWithin(v, lo, hi)
    ensures r == Some(None) <==> v.None?
    ensures r.Some? && r.value.Some? ==> v == Some(JStr(r.value.value))
  {
    match v
    case None => Some(None)
    case Some(JStr(s)) => if lo <= Utf16Length(s) <= hi then Some(Some(s)) else None
    case _ => None
  }

  function ParseOptionalBoolean(v: Option<Json>): (r: Option<Option<bool>>)
    ensures r.Some? <==> OptionalBoolean(v)
    ensures r == Some(None) <==> v.None?
    ensures r.Some? && r.value.Some? ==> v == Some(JBool(r.value.value))
  {
    match v
    case None => Some(None)
    case Some(JBool(b)) => Some(Some(b))
    case _ => None
  }

  function ParseOptionalNumber(v: Option<Json>, lo: real, hi: real): (r: Option<Option<real>>)
    ensures r.Some? <==> OptionalNumberWithin(v, lo, hi)
    ensures r == Some(None) <==> v.None?
    ensures r.Some? && r.value.Some? ==> v == Some(JNum(r.value.value)) && lo <= r.value.value <= hi
  {
    match v
    case None => Some(None)
    case Some(JNum(n)) => if lo <= n <= hi then Some(Some(n)) else None
    case _ => None
  }

  function ParseObjectId(v: Option<Json>): (r: Option<string>)
    ensures r.Some? <==> ObjectIdValue(v)
    ensures r.Some? ==> v == Some(JStr(r.value)) && IsObjectId(r.value)
  {
    match v
    case Some(JStr(s)) => if IsObjectId(s) then Some(s) else None
    case _ => None
  }

  function ParseFormatted(v: Option<Json>, format: string -> bool): (r: Option<string>)
    ensures r.Some? <==> FormattedString(v, format)
    ensures r.Some? ==> v == Some(JStr(r.value))
  {
    match v
    case Some(JStr(s)) => if format(s) then Some(s) else None
    case _ => None
  }

  function ParseOptionalFormatted(v: Option<Json>, format: string -> bool): (r: Option<Option<string>>)
    ensures r.Some? <==> v.None? || FormattedString(v, format)
    ensures r == Some(None) <==> v.None?
    ensures r.Some? && r.value.Some? ==> v == Some(JStr(r.value.value))
  {
    match v
    case None => Some(None)
    case Some(JStr(s)) => if format(s) then Some(Some(s)) else None
    case _ => None
  }

  /** A list of tags as the JSON array it came from. */
  function TagsJson(tags: seq<string>): (r: seq<Json>)
    ensures |r| == |tags| && forall i :: 0 <= i < |tags| ==> r[i] == JStr(tags[i])
  {
    seq(|tags|, i requires 0 <= i < |tags| => JStr(tags[i]))
  }

  function TagStrings(items: seq<Json>): (r: seq<string>)
    requires TagList(items)
    ensures |r| == |items| && forall i :: 0 <= i < |items| ==> items[i] == JStr(r[i])
  {
    seq(|items|, i requires 0 <= i < |items| => items[i].s)
  }

  function ParseOptionalTags(v: Option<Json>): (r: Option<Option<seq<string>>>)
    ensures r.Some? <==> OptionalTags(v)
    ensures r == Some(None) <==> v.None?
    ensures r.Some? && r.value.Some? ==> v == Some(JArr(TagsJson(r.value.value))) && TagBounds(r.value.value)
  {
    match v
    case None => Some(None)
    case Some(JArr(items)) =>
      if TagList(items) then
        var tags := TagStrings(items);
        assert TagsJson(tags) == items;
        Some(Some(tags))
      else None
    case _ => None
  }

  /** At most 10 tags of at most 50 code units each. */
  predicate TagBounds(tags: seq<string>) {
    |tags| <= 10 && forall i :: 0 <= i < |tags| ==> Utf16Length(tags[i]) <= 50
  }

  const CategoryNames: seq<string> := ["billing", "tech", "shipping", "other"]

  function ParseOptionalCategory(v: Option<Json>): (r: Option<Option<Category>>)
    ensures r.Some? <==> OptionalOneOf(v, CategoryNames)
    ensures r == Some(None) <==> v.None?
    ensures r.Some? && r.value.Some? ==> v == Some(JStr(CategoryName(r.value.value)))
  {
    match v
    case None => Some(None)
    case Some(JStr(s)) =>
      if s == "billing" then Some(Some(Billing))
      else if s == "tech" then Some(Some(Tech))
      else if s == "shipping" then Some(Some(Shipping))
      else if s == "other" then Some(Some(Other))
      else None
    case _ => None
  }

  /** The publication state of a knowledge-base article. */
  datatype ArticleStatus = DraftArticle | PublishedArticle

  function ArticleStatusName(s: ArticleStatus): string {
    match s
    case DraftArticle => "draft"
    case PublishedArticle => "published"
  }

  const ArticleStatusNames: seq<string> := ["draft", "published"]

  function ParseOptionalArticleStatus(v: Option<Json>): (r: Option<Option<ArticleStatus>>)
    ensures r.Some? <==> OptionalOneOf(v, ArticleStatusNames)
    ensures r == Some(None) <==> v.None?
    ensures r.Some? && r.value.Some? ==> v == Some(JStr(ArticleStatusName(r.value.value)))
  {
    match v
    case None => Some(None)
    case Some(JStr(s)) =>
      if s == "draft" then Some(Some(DraftArticle))
      else if s == "published" then Some(Some(PublishedArticle))
      else None
    case _ => None
  }

  const TemplateNames: seq<string> := ["default", "urgent", "detailed"]

  function ParseOptionalTemplate(v: Option<Json>): (r: Option<Option<Drafter.TemplateName>>)
    ensures r.Some? <==> OptionalOneOf(v, TemplateNames)
    ensures r == Some(None) <==> v.None?
    ensures r.Some? && r.value.Some? ==> v == Some(JStr(Drafter.TemplateNameText(r.value.value)))
  {
    match v
    case None => Some(None)
    case Some(JStr(s)) =>
      if s == "default" then Some(Some(Drafter.DefaultTemplate))
      else if s == "urgent" then Some(Some(Drafter.Urgent))
      else if s == "detailed" then Some(Some(Drafter.Detailed))
      else None
    case _ => None
  }

  // ---------------------------------------------------------------- schemas

  datatype RegisterInput = RegisterInput(name: string, email: string, password: string)

  /** RegisterSchema: name of 2 to 100 characters, an e-mail, a password of 6
      to 100 characters. */
  function ValidateRegister(body: Json, isEmail: string -> bool): (r: Option<RegisterInput>)
    ensures r.Some? <==> body.JObj? && StringWithin(Get(body, "name"), 2, 100) &&
                         FormattedString(Get(body, "email"), isEmail) &&
                         StringWithin(Get(body, "password"), 6, 100)
    ensures r.Some? ==> Get(body, "name") == Some(JStr(r.value.name)) && 2 <= Utf16Length(r.value.name) <= 100 &&
                        Get(body, "email") == Some(JStr(r.value.email)) && isEmail(r.value.email) &&
                        Get(body, "password") == Some(JStr(r.value.password)) && 6 <= Utf16Length(r.value.password) <= 100
  {
    if !body.JObj? then None
    else
      var name := ParseString(Get(body, "name"), 2, 100);
      var email := ParseFormatted(Get(body, "email"), isEmail);
      var password := ParseString(Get(body, "password"), 6, 100);
      if name.Some? && email.Some? && password.Some? then Some(RegisterInput(name.value, email.value, password.value))
      else None
  }

  datatype LoginInput = LoginInput(email: string, password: string)

  /** LoginSchema: an e-mail and a non-empty password (no upper bound). */
  function ValidateLogin(body: Json, isEmail: string -> bool): (r: Option<LoginInput>)
    ensures r.Some? <==> body.JObj? && FormattedString(Get(body, "email"), isEmail) &&
                         Get(body, "password").Some? && Get(body, "password").value.JStr? &&
                         Utf16Length(Get(body, "password").value.s) >= 1
    ensures r.Some? ==> Get(body, "email") == Some(JStr(r.value.email)) &&
                        Get(body, "password") == Some(JStr(r.value.password)) && Utf16Length(r.value.password) >= 1
  {
    if !body.JObj? then None
    else
      var email := ParseFormatted(Get(body, "email"), isEmail);
      match Get(body, "password")
      case Some(JStr(p)) => if email.Some? && Utf16Length(p) >= 1 then Some(LoginInput(email.value, p)) else None
      case _ => None
  }

  datatype CreateTicketInput = CreateTicketInput(title: string, description: Option<string>, category: Option<Category>)

  /** CreateTicketSchema: a title of 1 to 200 characters, an optional
      description of at most 2000, an optional category. */
  function ValidateCreateTicket(body: Json): (r: Option<CreateTicketInput>)
    ensures r.Some? <==> body.JObj? && StringWithin(Get(body, "title"), 1, 200) &&
                         OptionalStringWithin(Get(body, "description"), 0, 2000) &&
                         OptionalOneOf(Get(body, "category"), CategoryNames)
    ensures r.Some? ==> Get(body, "title") == Some(JStr(r.value.title)) && 1 <= Utf16Length(r.value.title) <= 200
    ensures r.Some? ==> (r.value.description.None? <==> Get(body, "description").None?) &&
                        (r.value.description.Some? ==> Get(body, "description") == Some(JStr(r.value.description.value)) &&
                                                       Utf16Length(r.value.description.value) <= 2000)
    ensures r.Some? ==> (r.value.category.None? <==> Get(body, "category").None?) &&
                        (r.value.category.Some? ==> Get(body, "category") == Some(JStr(CategoryName(r.value.category.value))))
  {
    if !body.JObj? then None
    else
      var title := ParseString(Get(body, "title"), 1, 200);
      var description := ParseOptionalString(Get(body, "description"), 0, 2000);
      var category := ParseOptionalCategory(Get(body, "category"));
      if title.Some? && description.Some? && category.Some? then
        Some(CreateTicketInput(title.value, description.value, category.value))
      else None
  }

  datatype ReplyInput = ReplyInput(body: string, resolveTicket: bool)

  /** ReplySchema: a body of 1 to 2000 characters; `resolveTicket` defaults to
      true. */
  function ValidateReply(body: Json): (r: Option<ReplyInput>)
    ensures r.Some? <==> body.JObj? && StringWithin(Get(body, "body"), 1, 2000) &&
                         OptionalBoolean(Get(body, "resolveTicket"))
    ensures r.Some? ==> Get(body, "body") == Some(JStr(r.value.body)) && 1 <= Utf16Length(r.value.body) <= 2000
    ensures r.Some? ==> (r.value.resolveTicket <==> Get(body, "resolveTicket") != Some(JBool(false)))
  {
    if !body.JObj? then None
    else
      var text := ParseString(Get(body, "body"), 1, 2000);
      var resolve := ParseOptionalBoolean(Get(body, "resolveTicket"));
      if text.Some? && resolve.Some? then Some(ReplyInput(text.value, resolve.value.GetOr(true)))
      else None
  }

  datatype AssignInput = AssignInput(assignee: string)

  /** AssignTicketSchema: the assignee is a 24-hex id. The schema declares
      only `body`, so the normalised input carries no path parameters. */
  function ValidateAssign(body: Json): (r: Option<AssignInput>)
    ensures r.Some? <==> ObjectIdValue(Get(body, "assignee"))
    ensures r.Some? ==> Get(body, "assignee") == Some(JStr(r.value.assignee)) && IsObjectId(r.value.assignee)
  {
    var assignee := ParseObjectId(Get(body, "assignee"));
    if assignee.Some? then Some(AssignInput(assignee.value)) else None
  }

  datatype ArticleInput = ArticleInput(title: string, body: string, tags: seq<string>, status: ArticleStatus)

  /** CreateArticleSchema: title of 1 to 200 characters, body of 1 to 10000,
      at most 10 tags of at most 50 characters each, defaulting to none, and a
      status defaulting to `draft`. */
  function ValidateCreateArticle(body: Json): (r: Option<ArticleInput>)
    ensures r.Some? <==> body.JObj? && StringWithin(Get(body, "title"), 1, 200) &&
                         StringWithin(Get(body, "body"), 1, 10000) &&
                         OptionalTags(Get(body, "tags")) &&
                         OptionalOneOf(Get(body, "status"), ArticleStatusNames)
    ensures r.Some? ==> Get(body, "title") == Some(JStr(r.value.title)) && 1 <= Utf16Length(r.value.title) <= 200 &&
                        Get(body, "body") == Some(JStr(r.value.body)) && 1 <= Utf16Length(r.value.body) <= 10000
    ensures r.Some? ==> TagBounds(r.value.tags) &&
                        (Get(body, "tags").None? ==> r.value.tags == []) &&
                        (Get(body, "tags").Some? ==> Get(body, "tags") == Some(JArr(TagsJson(r.value.tags))))
    ensures r.Some? ==> (Get(body, "status").None? ==> r.value.status == DraftArticle) &&
                        (Get(body, "status").Some? ==> Get(body, "status") == Some(JStr(ArticleStatusName(r.value.status))))
  {
    if !body.JObj? then None
    else
      var title := ParseString(Get(body, "title"), 1, 200);
      var text := ParseString(Get(body, "body"), 1, 10000);
      var tags := ParseOptionalTags(Get(body, "tags"));
      var status := ParseOptionalArticleStatus(Get(body, "status"));
      if title.Some? && text.Some? && tags.Some? && status.Some? then
        Some(ArticleInput(title.value, text.value, tags.value.GetOr([]), status.value.GetOr(DraftArticle)))
      else None
  }

  datatype ArticleUpdate = ArticleUpdate(
    id: string, title: Option<string>, body: Option<string>, tags: Option<seq<string>>, status: Option<ArticleStatus>)

  /** UpdateArticleSchema: a 24-hex `id` path parameter; every body field is
      optional with the bounds of article creation, and nothing is defaulted. */
  function ValidateUpdateArticle(params: Json, body: Json): (r: Option<ArticleUpdate>)
    ensures r.Some? <==> ObjectIdValue(Get(params, "id")) && body.JObj? &&
                         OptionalStringWithin(Get(body, "title"), 1, 200) &&
                         OptionalStringWithin(Get(body, "body"), 1, 10000) &&
                         OptionalTags(Get(body, "tags")) &&
                         OptionalOneOf(Get(body, "status"), ArticleStatusNames)
    ensures r.Some? ==> Get(params, "id") == Some(JStr(r.value.id)) && IsObjectId(r.value.id)
    ensures r.Some? ==> (r.value.title.None? <==> Get(body, "title").None?) &&
                        (r.value.title.Some? ==> Get(body, "title") == Some(JStr(r.value.title.value)) &&
                                                 1 <= Utf16Length(r.value.title.value) <= 200)
    ensures r.Some? ==> (r.value.body.None? <==> Get(body, "body").None?) &&
                        (r.value.body.Some? ==> Get(body, "body") == Some(JStr(r.value.body.value)) &&
                                                1 <= Utf16Length(r.value.body.value) <= 10000)
    ensures r.Some? ==> (r.value.tags.None? <==> Get(body, "tags").None?) &&
                        (r.value.tags.Some? ==> Get(body, "tags") == Some(JArr(TagsJson(r.value.tags.value))) &&
                                                TagBounds(r.value.tags.value))
    ensures r.Some? ==> (r.value.status.None? <==> Get(body, "status").None?) &&
                        (r.value.status.Some? ==> Get(body, "status") == Some(JStr(ArticleStatusName(r.value.status.value))))
  {
    var id := ParseObjectId(Get(params, "id"));
    if !body.JObj? then None
    else
      var title := ParseOptionalString(Get(body, "title"), 1, 200);
      var text := ParseOptionalString(Get(body, "body"), 1, 10000);
      var tags := ParseOptionalTags(Get(body, "tags"));
      var status := ParseOptionalArticleStatus(Get(body, "status"));
      if id.Some? && title.Some? && text.Some? && tags.Some? && status.Some? then
        Some(ArticleUpdate(id.value, title.value, text.value, tags.value, status.value))
      else None
  }

  datatype SearchInput = SearchInput(query: Option<string>)

  /** SearchKBSchema: an optional `query` string parameter of at most 200
      characters. */
  function ValidateSearch(query: Json): (r: Option<SearchInput>)
    ensures r.Some? <==> query.JObj? && OptionalStringWithin(Get(query, "query"), 0, 200)
    ensures r.Some? && r.value.query.Some? ==> Get(query, "query") == Some(JStr(r.value.query.value)) &&
                                               Utf16Length(r.value.query.value) <= 200
  {
    if !query.JObj? then None
    else
      var q := ParseOptionalString(Get(query, "query"), 0, 200);
      if q.Some? then Some(SearchInput(q.value)) else None
  }

  datatype ConfigUpdate = ConfigUpdate(autoCloseEnabled: Option<bool>, confidenceThreshold: Option<real>, slaHours: Option<real>)

  /** UpdateConfigSchema: all optional; a threshold in [0, 1] and SLA hours in
      [1, 168]. */
  function ValidateConfigUpdate(body: Json): (r: Option<ConfigUpdate>)
    ensures r.Some? <==> body.JObj? && OptionalBoolean(Get(body, "autoCloseEnabled")) &&
                         OptionalNumberWithin(Get(body, "confidenceThreshold"), 0.0, 1.0) &&
                         OptionalNumberWithin(Get(body, "slaHours"), 1.0, 168.0)
    ensures r.Some? ==> (r.value.autoCloseEnabled.None? <==> Get(body, "autoCloseEnabled").None?) &&
                        (r.value.autoCloseEnabled.Some? ==>
                           Get(body, "autoCloseEnabled") == Some(JBool(r.value.autoCloseEnabled.value)))
    ensures r.Some? ==> (r.value.confidenceThreshold.None? <==> Get(body, "confidenceThreshold").None?) &&
                        (r.value.confidenceThreshold.Some? ==>
                           Get(body, "confidenceThreshold") == Some(JNum(r.value.confidenceThreshold.value)) &&
                           0.0 <= r.value.confidenceThreshold.value <= 1.0)
    ensures r.Some? ==> (r.value.slaHours.None? <==> Get(body, "slaHours").None?) &&
                        (r.value.slaHours.Some? ==>
                           Get(body, "slaHours") == Some(JNum(r.value.slaHours.value)) &&
                           1.0 <= r.value.slaHours.value <= 168.0)
  {
    if !body.JObj? then None
    else
      var auto := ParseOptionalBoolean(Get(body, "autoCloseEnabled"));
      var threshold := ParseOptionalNumber(Get(body, "confidenceThreshold"), 0.0, 1.0);
      var sla := ParseOptionalNumber(Get(body, "slaHours"), 1.0, 168.0);
      if auto.Some? && threshold.Some? && sla.Some? then Some(ConfigUpdate(auto.value, threshold.value, sla.value))
      else None
  }

  datatype TriageInput = TriageInput(ticketId: string, traceId: Option<string>)

  /** TriageSchema: a 24-hex ticket id and an optional UUID trace id. */
  function ValidateTriage(body: Json, isUuid: string -> bool): (r: Option<TriageInput>)
    ensures r.Some? <==> ObjectIdValue(Get(body, "ticketId")) &&
                         (Get(body, "traceId").None? || FormattedString(Get(body, "traceId"), isUuid))
    ensures r.Some? ==> Get(body, "ticketId") == Some(JStr(r.value.ticketId)) && IsObjectId(r.value.ticketId)
    ensures r.Some? ==> (r.value.traceId.None? <==> Get(body, "traceId").None?) &&
                        (r.value.traceId.Some? ==> Get(body, "traceId") == Some(JStr(r.value.traceId.value)) &&
                                                   isUuid(r.value.traceId.value))
  {
    var ticketId := ParseObjectId(Get(body, "ticketId"));
    var traceId := ParseOptionalFormatted(Get(body, "traceId"), isUuid);
    if ticketId.Some? && traceId.Some? then Some(TriageInput(ticketId.value, traceId.value)) else None
  }

  datatype AgentReplyInput = AgentReplyInput(customReply: Option<string>, resolveTicket: bool)

  /** AgentReplySchema: an optional custom reply of at most 2000 characters;
      `resolveTicket` defaults to true. */
  function ValidateAgentReply(body: Json): (r: Option<AgentReplyInput>)
    ensures r.Some? <==> body.JObj? && OptionalStringWithin(Get(body, "customReply"), 0, 2000) &&
                         OptionalBoolean(Get(body, "resolveTicket"))
    ensures r.Some? ==> (r.value.customReply.None? <==> Get(body, "customReply").None?) &&
                        (r.value.customReply.Some? ==> Get(body, "customReply") == Some(JStr(r.value.customReply.value)) &&
                                                       Utf16Length(r.value.customReply.value) <= 2000)
    ensures r.Some? ==> (r.value.resolveTicket <==> Get(body, "resolveTicket") != Some(JBool(false)))
  {
    if !body.JObj? then None
    else
      var custom := ParseOptionalString(Get(body, "customReply"), 0, 2000);
      var resolve := ParseOptionalBoolean(Get(body, "resolveTicket"));
      if custom.Some? && resolve.Some? then Some(AgentReplyInput(custom.value, resolve.value.GetOr(true)))
      else None
  }

  /** RegenerateSuggestionSchema: a template name, `default` when absent. */
  function ValidateRegenerate(body: Json): (r: Option<Drafter.TemplateName>)
    ensures r.Some? <==> body.JObj? && OptionalOneOf(Get(body, "template"), TemplateNames)
    ensures r.Some? ==> (Get(body, "template").None? ==> r.value == Drafter.DefaultTemplate) &&
                        (Get(body, "template").Some? ==> Get(body, "template") == Some(JStr(Drafter.TemplateNameText(r.value))))
  {
    if !body.JObj? then None
    else
      var t := ParseOptionalTemplate(Get(body, "template"));
      if t.Some? then Some(t.value.GetOr(Drafter.DefaultTemplate)) else None
  }

  /** MongoIdParam (`key` = "id") and TicketIdParam (`key` = "ticketId"): the
      path parameter is a 24-hex id. */
  function ValidateIdParam(params: Json, key: string): (r: Option<string>)
    ensures r.Some? <==> ObjectIdValue(Get(params, key))
    ensures r.Some? ==> Get(params, key) == Some(JStr(r.value)) && IsObjectId(r.value)
  {
    ParseObjectId(Get(params, key))
  }

  // ----------------------------------------------------------------- lemmas

  /** An id field accepts a string exactly when it has 24 characters, each a
      decimal digit or a letter a-f in either case; this holds for the
      assignee, the triage ticket id and both path parameters alike. */
  lemma IdFieldsAgree(s: string, key: string)
    ensures var o := JObj([(key, JStr(s))]);
            (ValidateIdParam(o, key).Some? <==> IsObjectId(s)) &&
            (key == "assignee" ==> (ValidateAssign(o).Some? <==> IsObjectId(s))) &&
            (key == "ticketId" ==> (ValidateTriage(o, (u: string) => false).Some? <==> IsObjectId(s)))
  {
    var o := JObj([(key, JStr(s))]);
    assert Get(o, key) == Some(JStr(s));
    if key == "ticketId" {
      assert Get(o, "traceId").None?;
    }
  }

  /** A 24-character id with a character outside the hex digits, and one of
      23 hex digits, are both refused. */
  lemma ObjectIdExamples()
    ensures IsObjectId("507f1f77bcf86cd799439011")
    ensures !IsObjectId("507f1f77bcf86cd79943901g")
    ensures !IsObjectId("507f1f77bcf86cd79943901")
  {
    var bad := "507f1f77bcf86cd79943901g";
    assert bad[23] == 'g';
  }

  /** Every body article creation accepts is also accepted as an update (with a
      valid id), and when all four fields are present an update body is
      accepted exactly when creation would accept it: the bounds are the same. */
  lemma UpdateBoundsMatchCreate(params: Json, body: Json)
    requires ObjectIdValue(Get(params, "id"))
    ensures ValidateCreateArticle(body).Some? ==> ValidateUpdateArticle(params, body).Some?
    ensures Get(body, "title").Some? && Get(body, "body").Some? ==>
              (ValidateCreateArticle(body).Some? <==> ValidateUpdateArticle(params, body).Some?)
  {
  }

  /** Lengths are counted as JavaScript counts them: a title of 101 astral
      characters (an emoji each) is 202 code units long and is refused,
      although it has only 101 characters. */
  lemma AstralTitleRefused()
    ensures var title := seq(101, _ => '\U{1F600}');
            |title| == 101 && Utf16Length(title) == 202 &&
            ValidateCreateTicket(JObj([("title", JStr(title))])).None?
  {
    var title := seq(101, _ => '\U{1F600}');
    Utf16LengthAstral(title);
    assert Get(JObj([("title", JStr(title))]), "title") == Some(JStr(title));
  }

  /** Without astral characters a bound in code units is a bound in
      characters. */
  lemma BmpBoundsCountCharacters(v: Option<Json>, lo: nat, hi: nat)
    requires v.Some? && v.value.JStr? && forall i :: 0 <= i < |v.value.s| ==> !Astral(v.value.s[i])
    ensures StringWithin(v, lo, hi) <==> lo <= |v.value.s| <= hi
  {
    Utf16LengthBmp(v.value.s);
  }

  /** Omitting every defaulted field gives the declared defaults. */
  lemma Defaults(body: Json)
    requires body.JObj?
    requires Get(body, "resolveTicket").None? && Get(body, "tags").None? &&
             Get(body, "status").None? && Get(body, "template").None?
    ensures ValidateReply(body).Some? ==> ValidateReply(body).value.resolveTicket
    ensures ValidateAgentReply(body).Some? ==> ValidateAgentReply(body).value.resolveTicket
    ensures ValidateCreateArticle(body).Some? ==>
              ValidateCreateArticle(body).value.tags == [] && ValidateCreateArticle(body).value.status == DraftArticle
    ensures ValidateRegenerate(body) == Some(Drafter.DefaultTemplate)
  {
  }
}
