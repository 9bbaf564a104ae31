/** The keyword heuristic that predicts a ticket's category and a confidence
    (services/agent.js, classifyHeuristic). Confidence is in integer hundredths. */
module Classifier {
  import opened Domain
  import opened Text

  const BillingKeywords: seq<string> := ["refund", "invoice", "payment", "charged", "credit", "billing"]
  const TechKeywords: seq<string> := ["error", "bug", "stack", "crash", "500", "login", "auth", "issue"]
  const ShippingKeywords: seq<string> := ["delivery", "shipment", "tracking", "package", "courier", "delayed"]

  datatype Classification = Classification(predicted: Category, confidence: nat)

  /** How many entries of `keywords` occur as substrings of `text`. */
  function CountMatches(text: string, keywords: seq<string>): (n: nat)
    ensures n <= |keywords|
    decreases |keywords|
  {
    if |keywords| == 0 then 0
    else
      CountMatches(text, keywords[..|keywords| - 1]) + (if Contains(text, keywords[|keywords| - 1]) then 1 else 0)
  }

  /** The count is zero exactly when no keyword occurs. */
  lemma {:induction false} CountZeroIffNone(text: string, keywords: seq<string>)
    ensures CountMatches(text, keywords) == 0 <==> forall k :: 0 <= k < |keywords| ==> !Contains(text, keywords[k])
    decreases |keywords|
  {
    if |keywords| > 0 {
      var init := keywords[..|keywords| - 1];
      CountZeroIffNone(text, init);
      assert forall k :: 0 <= k < |init| ==> init[k] == keywords[k];
    }
  }

  /** The loop over the counts in declaration order: an entry replaces the
      current winner only with a strictly larger count. */
  function WinnerOf(entries: seq<(Category, nat)>): (Category, nat)
    decreases |entries|
  {
    if |entries| == 0 then (Other, 0)
    else
      var w := WinnerOf(entries[..|entries| - 1]);
      var e := entries[|entries| - 1];
      if e.1 > w.1 then e else w
  }

  /** The winner of the three counts: the first category with the strictly
      largest positive count, and `Other` when every count is zero. */
  function Winner(billing: nat, tech: nat, shipping: nat): (r: (Category, nat))
    ensures r.0 == Other <==> billing == 0 && tech == 0 && shipping == 0
    ensures r.0 == Billing <==> billing > 0 && billing >= tech && billing >= shipping
    ensures r.0 == Tech <==> tech > 0 && tech > billing && tech >= shipping
    ensures r.0 == Shipping <==> shipping > 0 && shipping > billing && shipping > tech
    ensures r.1 == Max3(billing, tech, shipping)
  {
    var (p1, m1) := if billing > 0 then (Billing, billing) else (Other, 0);
    var (p2, m2) := if tech > m1 then (Tech, tech) else (p1, m1);
    if shipping > m2 then (Shipping, shipping) else (p2, m2)
  }

  /** The loop over the three entries computes `Winner`. */
  lemma WinnerOfThree(billing: nat, tech: nat, shipping: nat)
    ensures WinnerOf([(Billing, billing), (Tech, tech), (Shipping, shipping)]) == Winner(billing, tech, shipping)
  {
    var entries: seq<(Category, nat)> := [(Billing, billing), (Tech, tech), (Shipping, shipping)];
    assert entries[..2] == [(Billing, billing), (Tech, tech)];
    assert entries[..2][..1] == [(Billing, billing)];
    assert entries[..2][..1][..0] == [];
    var r1: (Category, nat) := if billing > 0 then (Billing, billing) else (Other, 0);
    assert WinnerOf(entries[..2][..1]) == r1;
    var r2 := if tech > r1.1 then (Tech, tech) else r1;
    assert WinnerOf(entries[..2]) == r2;
  }

  function Max3(a: nat, b: nat, c: nat): nat {
    if a >= b && a >= c then a else if b >= c then b else c
  }

  function ConfidenceFor(predicted: Category, max: nat): nat {
    if predicted == Other then 50
    else if 50 + 15 * max <= 100 then 50 + 15 * max else 100
  }

  /** What classifyHeuristic returns for `text`. */
  function Classify(text: string): (r: Classification)
    ensures 50 <= r.confidence <= 100
  {
    var lower := Lower(text);
    var w := Winner(
      CountMatches(lower, BillingKeywords),
      CountMatches(lower, TechKeywords),
      CountMatches(lower, ShippingKeywords));
    Classification(w.0, ConfidenceFor(w.0, w.1))
  }

  /** A keyword of some category occurs in the lower-cased text. */
  predicate AnyKeyword(text: string) {
    var lower := Lower(text);
    (exists k :: 0 <= k < |BillingKeywords| && Contains(lower, BillingKeywords[k])) ||
    (exists k :: 0 <= k < |TechKeywords| && Contains(lower, TechKeywords[k])) ||
    (exists k :: 0 <= k < |ShippingKeywords| && Contains(lower, ShippingKeywords[k]))
  }

  /** `Other` is predicted exactly when no keyword occurs, and then the
      confidence is exactly 50; otherwise it is min(100, 50 + 15 * the winning
      count). */
  lemma {:induction false} OtherIffNoKeyword(text: string)
    ensures Classify(text).predicted == Other <==> !AnyKeyword(text)
    ensures Classify(text).predicted == Other ==> Classify(text).confidence == 50
    ensures Classify(text).predicted != Other ==>
              var lower := Lower(text);
              var max := Max3(CountMatches(lower, BillingKeywords), CountMatches(lower, TechKeywords),
                              CountMatches(lower, ShippingKeywords));
              max > 0 && Classify(text).confidence == if 50 + 15 * max <= 100 then 50 + 15 * max else 100
  {
    var lower := Lower(text);
    CountZeroIffNone(lower, BillingKeywords);
    CountZeroIffNone(lower, TechKeywords);
    CountZeroIffNone(lower, ShippingKeywords);
  }

  /** One of classifyHeuristic's counting loops: the number of `keywords`
      found in `lower`. */
  method CountKeywords(lower: string, keywords: seq<string>) returns (n: nat)
    ensures n == CountMatches(lower, keywords)
  {
    n := 0;
    for i := 0 to |keywords|
      invariant n == CountMatches(lower, keywords[..i])
    {
      assert keywords[..i + 1][..i] == keywords[..i];
      if Contains(lower, keywords[i]) {
        n := n + 1;
      }
    }
    assert keywords[..|keywords|] == keywords;
  }

  /** classifyHeuristic: counts the keywords of each category found in the
      lower-cased text, then keeps the first category with the strictly largest
      count. */
  method ClassifyHeuristic(text: string) returns (r: Classification)
    ensures r == Classify(text)
    ensures 50 <= r.confidence <= 100
  {
    var lower := Lower(text);
    var billing := CountKeywords(lower, BillingKeywords);
    var tech := CountKeywords(lower, TechKeywords);
    var shipping := CountKeywords(lower, ShippingKeywords);
    var counts := [(Billing, billing), (Tech, tech), (Shipping, shipping)];
    var predicted := Other;
    var max := 0;
    for j := 0 to |counts|
      invariant (predicted, max) == WinnerOf(counts[..j])
    {
      assert counts[..j + 1][..j] == counts[..j];
      if counts[j].1 > max {
        max := counts[j].1;
        predicted := counts[j].0;
      }
    }
    assert counts[..|counts|] == counts;
    WinnerOfThree(billing, tech, shipping);
    assert (predicted, max) == Winner(billing, tech, shipping);
    r := Classification(predicted, ConfidenceFor(predicted, max));
    assert r == Classify(text);
  }
}
