/** The reply drafter of the triage service (services/agent.js): the template
    table with its fallback, the time-of-day greeting, the article and closing
    sections, the placeholder substitution and the draft record. */
module Drafter {
  import opened Wrappers
  import opened Domain
  import opened Text

  /** The template variants a caller may ask for. */
  datatype TemplateName = DefaultTemplate | Urgent | Detailed

  function TemplateNameText(t: TemplateName): string {
    match t
    case DefaultTemplate => "default"
    case Urgent => "urgent"
    case Detailed => "detailed"
  }

  const GreetingSlot: string := "{greeting}"
  const TitleSlot: string := "{ticketTitle}"
  const CategorySlot: string := "{ticketCategory}"
  const ArticleSlot: string := "{articleSection}"
  const ClosingSlot: string := "{closingSection}"

  /** The fixed text of a template between its placeholders. Every template of
      the service has the placeholders in the order greeting, title, article
      section, closing section, with a blank line after the greeting. */
  datatype Parts = Parts(intro: string, afterTitle: string, beforeClosing: string)

  function TemplateText(p: Parts): string {
    GreetingSlot + AfterGreeting(p)
  }

  /** What follows the greeting placeholder in a template. */
  function AfterGreeting(p: Parts): string {
    "\n\n" + p.intro + TitleSlot + AfterTitle(p)
  }

  /** What follows the title placeholder in a template. */
  function AfterTitle(p: Parts): string {
    p.afterTitle + ArticleSlot + p.beforeClosing + ClosingSlot
  }

  // Long literals are written in short pieces.
  const QuoteEnd: string := "\".\n\n"
  const BlankLine: string := "\n\n"
  const BillingIntro: string := "Thank you for contacting us " + "about your billing inquiry: \""
  const BillingUrgentIntro: string :=
    "We understand billing issues " + "can be concerning. We've reviewed " + "your ticket: \""
  const BillingUrgentNote: string :=
    "\n\nFor immediate assistance, you " + "can also call our billing " + "support line.\n\n"
  const TechIntro: string := "Thank you for reporting the " + "technical issue: \""
  const TechDetailedIntro: string := "We've received your technical " + "support request: \""
  const DetailsAsk: string := "\n\nIf these resources don't " + "resolve the issue, please "
  const DetailsSteps: string := "provide additional details " + "such as:\n" + "- Steps to reproduce the " + "problem\n"
  const DetailsList: string := "- Error messages (if any)\n" + "- Your browser/device " + "information\n\n"
  const DetailsRequest: string := DetailsAsk + DetailsSteps + DetailsList
  const ShippingIntro: string := "Thank you for your shipping " + "inquiry: \""
  const OtherIntro: string := "Thank you for contacting us " + "regarding: \""

  const BillingDefault: Parts := Parts(BillingIntro, QuoteEnd, BlankLine)
  const BillingUrgent: Parts := Parts(BillingUrgentIntro, QuoteEnd, BillingUrgentNote)
  const TechDefault: Parts := Parts(TechIntro, QuoteEnd, BlankLine)
  const TechDetailed: Parts := Parts(TechDetailedIntro, QuoteEnd, DetailsRequest)
  const ShippingDefault: Parts := Parts(ShippingIntro, QuoteEnd, BlankLine)
  const OtherDefault: Parts := Parts(OtherIntro, QuoteEnd, BlankLine)

  /** The template table: the entry for a (category, variant) pair, if there is
      one. A ticket without a category has no entry. */
  function TemplateTable(category: Option<Category>, t: TemplateName): Option<Parts> {
    match (category, t)
    case (Some(Billing), DefaultTemplate) => Some(BillingDefault)
    case (Some(Billing), Urgent) => Some(BillingUrgent)
    case (Some(Tech), DefaultTemplate) => Some(TechDefault)
    case (Some(Tech), Detailed) => Some(TechDetailed)
    case (Some(Shipping), DefaultTemplate) => Some(ShippingDefault)
    case (Some(Other), DefaultTemplate) => Some(OtherDefault)
    case _ => None
  }

  /** The parts of the template getReplyTemplate picks. */
  function SelectParts(category: Option<Category>, t: TemplateName): (p: Parts)
    ensures TemplateTable(category, t).Some? ==> p == TemplateTable(category, t).value
    ensures TemplateTable(category, t).None? ==> p == OtherDefault
  {
    TemplateTable(category, t).GetOr(OtherDefault)
  }

  /** getReplyTemplate. */
  function GetReplyTemplate(category: Option<Category>, t: TemplateName): string {
    TemplateText(SelectParts(category, t))
  }

  /** A (category, variant) pair has its own template exactly when the variant
      is the default one and the ticket has a category, or the pair is
      billing/urgent or tech/detailed; every other pair falls back to the
      default template of `other`. */
  lemma TemplateLookup(category: Option<Category>, t: TemplateName)
    ensures TemplateTable(category, t).Some? <==>
              (t == DefaultTemplate && category.Some?) ||
              (category == Some(Billing) && t == Urgent) ||
              (category == Some(Tech) && t == Detailed)
    ensures TemplateTable(category, t).None? ==> GetReplyTemplate(category, t) == TemplateText(OtherDefault)
  {
  }

  /** The fallback goes to `other`'s default, not to the category's own
      default: shipping has no urgent variant. */
  lemma ShippingUrgentFallsBack()
    ensures GetReplyTemplate(Some(Shipping), Urgent) == TemplateText(OtherDefault)
    ensures GetReplyTemplate(Some(Shipping), Urgent) != GetReplyTemplate(Some(Shipping), DefaultTemplate)
  {
    var a := GetReplyTemplate(Some(Shipping), Urgent);
    var b := GetReplyTemplate(Some(Shipping), DefaultTemplate);
    assert a[26] != b[26];
  }

  /** getPersonalizedGreeting for the given local hour, or the fixed greeting
      when personalisation is off. */
  function Greeting(hour: int, personalize: bool): (r: string)
    ensures !personalize ==> r == "Hello,"
    ensures personalize && hour < 12 ==> r == "Good morning,"
    ensures personalize && 12 <= hour < 17 ==> r == "Good afternoon,"
    ensures personalize && 17 <= hour ==> r == "Good evening,"
  {
    if !personalize then "Hello,"
    else if hour < 12 then "Good morning,"
    else if hour < 17 then "Good afternoon,"
    else "Good evening,"
  }

  const SummaryLength: nat := 150

  /** An article's summary: the first 150 characters of its body, followed by
      an ellipsis exactly when the body is longer. */
  function Summary(body: string): (r: string)
    ensures |body| <= SummaryLength ==> r == body
    ensures |body| > SummaryLength ==> |r| == SummaryLength + 3 && r[..SummaryLength] == body[..SummaryLength] && r[SummaryLength..] == "..."
  {
    Take(body, SummaryLength) + (if |body| > SummaryLength then "..." else "")
  }

  /** The reference line of the article numbered `number`. */
  function ArticleRef(number: nat, a: Article): string {
    NatToString(number) + ". **" + a.title + "**\n   " + Summary(a.body)
  }

  /** The articles' reference lines, numbered from 1 in retrieval order. */
  function ArticleRefs(articles: seq<Article>): (r: seq<string>)
    ensures |r| == |articles|
    ensures forall i :: 0 <= i < |articles| ==> r[i] == ArticleRef(i + 1, articles[i])
  {
    seq(|articles|, i requires 0 <= i < |articles| => ArticleRef(i + 1, articles[i]))
  }

  const ArticlesIntro: string :=
    "Based on our knowledge base, here " + "are some resources that may help:\n\n"
  const SpecialistHead: string := "We're reviewing your request " + "and will route it to the "
  const SpecialistTail: string := "appropriate specialist for " + "personalized assistance."
  const SpecialistText: string := SpecialistHead + SpecialistTail
  const SignOff: string := "\n\nBest regards,\nSmart Helpdesk " + "Support Team"
  const ResolvedClosing: string :=
    "If these resources resolve your " + "issue, you can mark this ticket as " + "resolved. Otherwise, our support "
    + "team will follow up with you " + "shortly." + SignOff
  const FollowUpClosing: string :=
    "Our support team will review your " + "request and get back to you within " + "24 hours." + SignOff

  function ArticleSection(articles: seq<Article>): string {
    if |articles| > 0 then ArticlesIntro + Join(ArticleRefs(articles), "\n\n") else SpecialistText
  }

  function ClosingSection(hasArticles: bool): string {
    if hasArticles then ResolvedClosing else FollowUpClosing
  }

  /** The values buildReplyFromTemplate substitutes. */
  datatype RenderData = RenderData(greeting: string, ticketTitle: string, ticketCategory: string, articles: seq<Article>)

  /** buildReplyFromTemplate as a value: the five placeholders are substituted
      one after another, each time only at the first occurrence in the text
      produced so far. */
  function RenderTemplate(template: string, d: RenderData): string {
    Substitute(template, d.greeting, d.ticketTitle, d.ticketCategory,
               ArticleSection(d.articles), ClosingSection(|d.articles| > 0))
  }

  function Substitute(template: string, greeting: string, title: string, category: string,
                      section: string, closing: string): string {
    var r1 := ReplaceFirst(template, GreetingSlot, greeting);
    var r2 := ReplaceFirst(r1, TitleSlot, title);
    var r3 := ReplaceFirst(r2, CategorySlot, category);
    var r4 := ReplaceFirst(r3, ArticleSlot, section);
    ReplaceFirst(r4, ClosingSlot, closing)
  }

  /** buildReplyFromTemplate: reassigns the reply once per placeholder. */
  method BuildReplyFromTemplate(template: string, d: RenderData) returns (reply: string)
    ensures reply == RenderTemplate(template, d)
    ensures forall p :: template == TemplateText(p) && BraceFree(d) && PartsBraceFree(p) ==>
              reply == Rendered(p, d)
  {
    reply := template;
    reply := ReplaceFirst(reply, GreetingSlot, d.greeting);
    reply := ReplaceFirst(reply, TitleSlot, d.ticketTitle);
    reply := ReplaceFirst(reply, CategorySlot, d.ticketCategory);
    var articleSection := ArticleSection(d.articles);
    reply := ReplaceFirst(reply, ArticleSlot, articleSection);
    var closingSection := ClosingSection(|d.articles| > 0);
    reply := ReplaceFirst(reply, ClosingSlot, closingSection);
    forall p | template == TemplateText(p) && BraceFree(d) && PartsBraceFree(p)
      ensures reply == Rendered(p, d)
    {
      RenderShape(p, d);
    }
  }

  /** None of the user-supplied text holds an opening brace, so none of it can
      be mistaken for a placeholder. */
  predicate BraceFree(d: RenderData) {
    '{' !in d.greeting && '{' !in d.ticketTitle &&
    forall k :: 0 <= k < |d.articles| ==> '{' !in d.articles[k].title && '{' !in d.articles[k].body
  }

  predicate PartsBraceFree(p: Parts) {
    '{' !in p.intro && '{' !in p.afterTitle && '{' !in p.beforeClosing
  }

  /** The reply as the template reads: every placeholder stands for its value. */
  function Rendered(p: Parts, d: RenderData): string {
    d.greeting + "\n\n" + p.intro + d.ticketTitle + p.afterTitle + ArticleSection(d.articles)
    + p.beforeClosing + ClosingSection(|d.articles| > 0)
  }

  lemma NatToStringBraceFree(n: nat)
    ensures '{' !in NatToString(n)
  {
  }

  lemma {:induction false} SummaryBraceFree(body: string)
    requires '{' !in body
    ensures '{' !in Summary(body)
  {
    if |body| > SummaryLength {
      PrefixKeepsAbsence(body, SummaryLength, '{');
      assert '{' !in "...";
    }
  }

  lemma ArticlesIntroBraceFree()
    ensures '{' !in ArticlesIntro
  {
  }

  lemma SpecialistHeadBraceFree()
    ensures '{' !in SpecialistHead
  {
  }

  lemma SpecialistTailBraceFree()
    ensures '{' !in SpecialistTail
  {
  }

  lemma SpecialistTextBraceFree()
    ensures '{' !in SpecialistText
  {
    SpecialistHeadBraceFree();
    SpecialistTailBraceFree();
  }

  lemma {:induction false} ArticleSectionBraceFree(articles: seq<Article>)
    requires forall k :: 0 <= k < |articles| ==> '{' !in articles[k].title && '{' !in articles[k].body
    ensures '{' !in ArticleSection(articles)
  {
    if |articles| > 0 {
      var refs := ArticleRefs(articles);
      forall k | 0 <= k < |refs|
        ensures '{' !in refs[k]
      {
        NatToStringBraceFree(k + 1);
        SummaryBraceFree(articles[k].body);
        assert '{' !in ". **" && '{' !in "**\n   ";
      }
      assert '{' !in "\n\n";
      JoinKeepsAbsence(refs, "\n\n", '{');
      ArticlesIntroBraceFree();
    } else {
      SpecialistTextBraceFree();
    }
  }

  lemma SlotTails()
    ensures ArticleSlot == ['{'] + "articleSection}" && '{' !in "articleSection}"
    ensures ClosingSlot == ['{'] + "closingSection}" + [] && '{' !in "closingSection}"
  {
  }

  lemma CategorySlotChars()
    ensures |CategorySlot| >= 2 && CategorySlot[0] == '{' && CategorySlot[1] == 't'
  {
  }

  /** The category placeholder does not occur in a brace-free text followed by
      the closing placeholder. */
  lemma ClosingTailAbsent(before: string)
    requires '{' !in before
    ensures IndexOf(before + ClosingSlot, CategorySlot).None?
  {
    var tailC := "closingSection}";
    SlotTails();
    CategorySlotChars();
    SkipsSlot('{', tailC, [], CategorySlot);
    assert IndexOf([], CategorySlot) == None;
    assert IndexOf(ClosingSlot, CategorySlot) == None;
    IndexOfSkipsPrefix(before, ClosingSlot, CategorySlot);
  }

  /** The category placeholder does not occur in what remains after the title
      substitution, so its substitution leaves the text unchanged. */
  lemma CategorySlotAbsent(x: string, before: string)
    requires '{' !in x && '{' !in before
    ensures !Contains(x + ArticleSlot + before + ClosingSlot, CategorySlot)
  {
    var tailA := "articleSection}";
    var y := before + ClosingSlot;
    ClosingTailAbsent(before);
    SlotTails();
    var z := ArticleSlot + y;
    assert x + ArticleSlot + before + ClosingSlot == x + z;
    assert z == ['{'] + tailA + y;
    SkipsSlot('{', tailA, y, CategorySlot);
    IndexOfSkipsPrefix(x, z, CategorySlot);
  }

  lemma SubstituteGreeting(p: Parts, greeting: string)
    ensures ReplaceFirst(TemplateText(p), GreetingSlot, greeting) == greeting + AfterGreeting(p)
  {
    ReplaceAtStart(GreetingSlot, AfterGreeting(p), greeting);
  }

  lemma SubstituteTitle(p: Parts, greeting: string, title: string)
    requires PartsBraceFree(p) && '{' !in greeting
    ensures ReplaceFirst(greeting + AfterGreeting(p), TitleSlot, title) ==
            greeting + "\n\n" + p.intro + title + AfterTitle(p)
  {
    assert '{' !in "\n\n";
    var x := greeting + "\n\n" + p.intro;
    assert greeting + AfterGreeting(p) == x + TitleSlot + AfterTitle(p);
    ReplaceAfterPrefix(x, TitleSlot, AfterTitle(p), title);
  }

  /** The greeting and title substitutions. */
  lemma SubstituteHead(p: Parts, greeting: string, title: string)
    requires PartsBraceFree(p) && '{' !in greeting
    ensures ReplaceFirst(ReplaceFirst(TemplateText(p), GreetingSlot, greeting), TitleSlot, title) ==
            greeting + "\n\n" + p.intro + title + p.afterTitle + ArticleSlot + p.beforeClosing + ClosingSlot
  {
    SubstituteGreeting(p, greeting);
    SubstituteTitle(p, greeting, title);
    var x := greeting + "\n\n" + p.intro + title;
    var a, b, c, d := p.afterTitle, ArticleSlot, p.beforeClosing, ClosingSlot;
    calc {
      x + AfterTitle(p);
      x + (a + b + c + d);
      { Associative(x, a + b + c, d); }
      x + (a + b + c) + d;
      { Associative(x, a + b, c); }
      x + (a + b) + c + d;
      { Associative(x, a, b); }
      x + a + b + c + d;
    }
  }

  lemma Associative(x: string, y: string, z: string)
    ensures x + (y + z) == x + y + z
  {
  }

  /** The category, article-section and closing substitutions. */
  lemma SubstituteTail(x: string, before: string, category: string, section: string, closing: string)
    requires '{' !in x && '{' !in before && '{' !in section
    ensures ReplaceFirst(ReplaceFirst(ReplaceFirst(x + ArticleSlot + before + ClosingSlot, CategorySlot, category),
                                      ArticleSlot, section), ClosingSlot, closing) ==
            x + section + before + closing
  {
    var r2 := x + ArticleSlot + before + ClosingSlot;
    CategorySlotAbsent(x, before);
    assert ReplaceFirst(r2, CategorySlot, category) == r2;
    var z := before + ClosingSlot;
    assert r2 == x + ArticleSlot + z;
    ReplaceAfterPrefix(x, ArticleSlot, z, section);
    var y := x + section + before;
    assert ReplaceFirst(r2, ArticleSlot, section) == y + ClosingSlot + [];
    ReplaceAfterPrefix(y, ClosingSlot, [], closing);
  }

  /** Substitution into a template of the service's shape, for values without
      braces, places each value where its placeholder stood. */
  lemma SubstituteShape(p: Parts, greeting: string, title: string, category: string,
                        section: string, closing: string)
    requires PartsBraceFree(p) && '{' !in greeting && '{' !in title && '{' !in section
    ensures Substitute(TemplateText(p), greeting, title, category, section, closing) ==
            greeting + "\n\n" + p.intro + title + p.afterTitle + section + p.beforeClosing + closing
  {
    SubstituteHead(p, greeting, title);
    assert '{' !in "\n\n";
    SubstituteTail(greeting + "\n\n" + p.intro + title + p.afterTitle, p.beforeClosing, category, section, closing);
  }

  /** For a template of the service's shape and user text without braces, the
      sequential first-occurrence substitution yields exactly the template with
      each placeholder standing for its value. */
  lemma RenderShape(p: Parts, d: RenderData)
    requires BraceFree(d) && PartsBraceFree(p)
    ensures RenderTemplate(TemplateText(p), d) == Rendered(p, d)
  {
    ArticleSectionBraceFree(d.articles);
    SubstituteShape(p, d.greeting, d.ticketTitle, d.ticketCategory,
                    ArticleSection(d.articles), ClosingSection(|d.articles| > 0));
  }

  lemma QuoteEndBraceFree()
    ensures '{' !in QuoteEnd && '{' !in BlankLine
  {
  }

  lemma BillingIntroBraceFree()
    ensures '{' !in BillingIntro
  {
  }

  lemma BillingUrgentIntroBraceFree()
    ensures '{' !in BillingUrgentIntro
  {
  }

  lemma BillingUrgentNoteBraceFree()
    ensures '{' !in BillingUrgentNote
  {
  }

  lemma TechIntroBraceFree()
    ensures '{' !in TechIntro
  {
  }

  lemma TechDetailedIntroBraceFree()
    ensures '{' !in TechDetailedIntro
  {
  }

  lemma DetailsAskBraceFree()
    ensures '{' !in DetailsAsk
  {
  }

  lemma DetailsStepsBraceFree()
    ensures '{' !in DetailsSteps
  {
  }

  lemma DetailsListBraceFree()
    ensures '{' !in DetailsList
  {
  }

  lemma DetailsRequestBraceFree()
    ensures '{' !in DetailsRequest
  {
    DetailsAskBraceFree();
    DetailsStepsBraceFree();
    DetailsListBraceFree();
  }

  lemma ShippingIntroBraceFree()
    ensures '{' !in ShippingIntro
  {
  }

  lemma OtherIntroBraceFree()
    ensures '{' !in OtherIntro
  {
  }

  /** Every template of the table has brace-free fixed text. */
  lemma TemplatesBraceFree(category: Option<Category>, t: TemplateName)
    ensures PartsBraceFree(SelectParts(category, t))
  {
    QuoteEndBraceFree();
    BillingIntroBraceFree();
    BillingUrgentIntroBraceFree();
    BillingUrgentNoteBraceFree();
    TechIntroBraceFree();
    TechDetailedIntroBraceFree();
    DetailsRequestBraceFree();
    ShippingIntroBraceFree();
    OtherIntroBraceFree();
  }

  lemma GreetingBraceFree(hour: int, personalize: bool)
    ensures '{' !in Greeting(hour, personalize)
  {
  }

  /** The category as a template literal renders it: its name, or `undefined`
      for a ticket that has none. */
  function CategoryText(c: Option<Category>): string {
    match c
    case None => "undefined"
    case Some(k) => CategoryName(k)
  }

  /** What draftReply returns. */
  datatype Draft = Draft(draftReply: string, citations: seq<string>, template: TemplateName, articleCount: nat)

  /** draftReply: the template is looked up by the ticket's category as it is
      when drafting; the hour stands for the clock the greeting reads. */
  function DraftReply(ticket: Ticket, articles: seq<Article>, template: TemplateName, personalize: bool,
                      hour: int): (r: Draft)
    ensures |r.citations| == |articles|
    ensures forall i :: 0 <= i < |articles| ==> r.citations[i] == articles[i].id
    ensures r.articleCount == |articles| && r.template == template
  {
    var d := RenderData(Greeting(hour, personalize), ticket.title, CategoryText(ticket.category), articles);
    Draft(RenderTemplate(GetReplyTemplate(ticket.category, template), d),
          seq(|articles|, i requires 0 <= i < |articles| => articles[i].id),
          template, |articles|)
  }

  /** When neither the title nor the articles hold a brace, the draft is the
      selected template with the greeting, the title, the article section and
      the closing section in place of their placeholders. */
  lemma DraftShape(ticket: Ticket, articles: seq<Article>, template: TemplateName, personalize: bool, hour: int)
    requires '{' !in ticket.title
    requires forall k :: 0 <= k < |articles| ==> '{' !in articles[k].title && '{' !in articles[k].body
    ensures var p := SelectParts(ticket.category, template);
            DraftReply(ticket, articles, template, personalize, hour).draftReply ==
            Greeting(hour, personalize) + "\n\n" + p.intro + ticket.title + p.afterTitle
            + ArticleSection(articles) + p.beforeClosing + ClosingSection(|articles| > 0)
  {
    var p := SelectParts(ticket.category, template);
    TemplatesBraceFree(ticket.category, template);
    GreetingBraceFree(hour, personalize);
    RenderShape(p, RenderData(Greeting(hour, personalize), ticket.title, CategoryText(ticket.category), articles));
  }

  /** Without articles the draft carries the specialist paragraph and the
      24-hour follow-up closing. */
  lemma DraftWithoutArticles(ticket: Ticket, template: TemplateName, personalize: bool, hour: int)
    requires '{' !in ticket.title
    ensures var p := SelectParts(ticket.category, template);
            DraftReply(ticket, [], template, personalize, hour).draftReply ==
            Greeting(hour, personalize) + "\n\n" + p.intro + ticket.title + p.afterTitle
            + SpecialistText + p.beforeClosing + FollowUpClosing
  {
    DraftShape(ticket, [], template, personalize, hour);
  }

  /** With articles the section lists them numbered from 1 in retrieval order
      and the closing invites the customer to mark the ticket resolved. */
  lemma DraftWithArticles(ticket: Ticket, articles: seq<Article>, template: TemplateName, personalize: bool,
                          hour: int)
    requires |articles| > 0 && '{' !in ticket.title
    requires forall k :: 0 <= k < |articles| ==> '{' !in articles[k].title && '{' !in articles[k].body
    ensures var p := SelectParts(ticket.category, template);
            DraftReply(ticket, articles, template, personalize, hour).draftReply ==
            Greeting(hour, personalize) + "\n\n" + p.intro + ticket.title + p.afterTitle
            + (ArticlesIntro + Join(ArticleRefs(articles), "\n\n")) + p.beforeClosing + ResolvedClosing
  {
    DraftShape(ticket, articles, template, personalize, hour);
  }
}
