/** The two heuristic risk scorers: `calculate_risk` of poller/poller.py (three
    independent factors with fixed weights) and `calculate_risk` of pollerv2.py
    (20 per matched keyword plus a low-price bonus). */
module Risk {
  import opened Text
  import opened Seqs
  import opened Records

  /** REFERENCE_PRICES of poller/poller.py: reference price per brand or model. */
  const REFERENCE_PRICES: map<string, int> := map[
    "Rolex" := 4000, "Omega" := 2500, "Breitling" := 2200, "Hublot" := 4500,
    "Patek Philippe" := 15000, "Audemars Piguet" := 12000, "Vacheron Constantin" := 8000,
    "Jaeger-LeCoultre" := 4000, "IWC" := 3000, "Panerai" := 3500, "Cartier" := 2500,
    "Tudor" := 2000, "Zenith" := 3000, "Tag Heuer" := 1000, "Longines" := 800,
    "Submariner" := 7000, "Daytona" := 12000, "Speedmaster" := 3000, "Seamaster" := 2500,
    "Nautilus" := 20000, "Royal Oak" := 15000, "Tank" := 1500, "Santos" := 3000,
    "Black Bay" := 2200, "Carrera" := 1500, "Monaco" := 3000,
    "Seiko" := 200, "Tissot" := 250, "Hamilton" := 400, "Citizen" := 150]

  /** Reference price used for brands missing from the table. */
  const DEFAULT_REFERENCE: int := 500

  /** SUSPICIOUS_KEYWORDS of poller/poller.py, in scan order. */
  const SUSPICIOUS_KEYWORDS: seq<string> := [
    "réplica", "replica", "clon", "imitación", "imitacion", "1:1", "AAA",
    "repro", "copia", "falso", "fake", "tipo rolex", "estilo rolex", "superclon",
    "sin papeles", "sin documentación", "perdida", "perdido", "herencia", "regalo",
    "urge", "urgente", "sin caja", "bloqueado", "encontrado",
    "solo whatsapp", "contactar por", "6*", "7*",
    "bizum", "transferencia", "envío gratis", "pago por adelantado",
    "inglés", "doy correo", "escribeme a", "no funciona wallapay",
    "abstenerse curiosos"]

  /** SUSPICIOUS_KEYWORDS of pollerv2.py, in scan order. */
  const SUSPICIOUS_KEYWORDS_V2: seq<string> := [
    "réplica", "replica", "clon", "clone", "imitación", "imitacion",
    "1:1", "AAA", "grado a", "superclon", "sin papeles", "sin documentación",
    "perdida documentación", "urge", "urgente", "sin caja", "bloqueado",
    "no funciona", "para piezas"]

  /** The plain text of a description: the "original" field of an object
      (empty when missing), the text itself otherwise. */
  function DescriptionText(d: Description): string
  {
    match d
    case Plain(t) => t
    case Structured(o) => o.GetOr("")
  }

  /** `(str(title) + " " + desc).lower()`: the text both scorers scan. */
  function ScanText(item: Listing): (t: string)
    ensures forall i :: 0 <= i < |t| ==> !('A' <= t[i] <= 'Z') && !('À' <= t[i] <= 'Þ' && t[i] != '×')
  {
    Lower(item.title.GetOr("") + " " + DescriptionText(item.description))
  }

  /** The keywords of `keywords` that occur in `text`, in list order
      (`[w for w in keywords if w in text]`). */
  function Matches(keywords: seq<string>, text: string): (found: seq<string>)
  {
    if keywords == [] then []
    else
      var init := keywords[..|keywords| - 1];
      var last := keywords[|keywords| - 1];
      if Contains(text, last) then Matches(init, text) + [last] else Matches(init, text)
  }

  /** The matches are exactly the keywords found in the text, in list order. */
  lemma {:induction false} MatchesMembers(keywords: seq<string>, text: string)
    ensures forall w :: w in Matches(keywords, text) <==> w in keywords && Contains(text, w)
    ensures IsSubsequence(Matches(keywords, text), keywords)
  {
    if keywords != [] {
      var init := keywords[..|keywords| - 1];
      var last := keywords[|keywords| - 1];
      assert keywords == init + [last];
      MatchesMembers(init, text);
      SubsequenceExtend(Matches(init, text), init, last, Contains(text, last));
    }
  }

  /** `ScanText` is lower-case, so an upper-case keyword such as "AAA" never matches. */
  lemma {:induction false} UpperCaseKeywordNeverFound(keywords: seq<string>, item: Listing, w: string, j: nat)
    requires j < |w| && 'A' <= w[j] <= 'Z'
    ensures w !in Matches(keywords, ScanText(item))
  {
    MatchesMembers(keywords, ScanText(item));
    UpperNeverInLower(item.title.GetOr("") + " " + DescriptionText(item.description), w, j);
  }

  lemma AAANeverFound(item: Listing)
    ensures "AAA" !in Matches(SUSPICIOUS_KEYWORDS, ScanText(item))
    ensures "AAA" !in Matches(SUSPICIOUS_KEYWORDS_V2, ScanText(item))
  {
    UpperCaseKeywordNeverFound(SUSPICIOUS_KEYWORDS, item, "AAA", 0);
    UpperCaseKeywordNeverFound(SUSPICIOUS_KEYWORDS_V2, item, "AAA", 0);
  }

  // ---------------------------------------------------------------------
  // poller/poller.py

  /** `REFERENCE_PRICES.get(brand, 500)` */
  function ReferencePrice(brand: string): (p: int)
    ensures brand !in REFERENCE_PRICES ==> p == DEFAULT_REFERENCE
    ensures brand in REFERENCE_PRICES ==> p == REFERENCE_PRICES[brand]
  {
    if brand in REFERENCE_PRICES then REFERENCE_PRICES[brand] else DEFAULT_REFERENCE
  }

  /** `price / ref if ref else 1.0` */
  function PriceIndex(price: real, ref: int): (rel: real)
    ensures ref == 0 ==> rel == 1.0
    ensures ref > 0 ==> rel * (ref as real) == price
  {
    if ref == 0 then 1.0 else price / (ref as real)
  }

  /** The price-anomaly trigger: cheap relative to the brand, or under 50 outright. */
  predicate PriceAnomalous(price: real, rel: real)
  {
    rel < 0.3 || (0.0 < price < 50.0)
  }

  /** Seller-activity threshold: strictly more listings than this triggers. */
  const SELLER_THRESHOLD: int := 20

  datatype Assessment = Assessment(score: int, reasons: seq<Reason>, found: seq<string>, relativeIndex: real)

  /** Weight each risk factor contributes. */
  function Weight(r: Reason): nat
  {
    match r
    case KeywordHits(_) => 20
    case PriceAnomaly(_) => 40
    case HighActivity(_) => 20
    case KeywordsFound(f) => 20 * |f|
    case VeryLowPrice => 10
  }

  function TotalWeight(rs: seq<Reason>): nat
  {
    if rs == [] then 0 else TotalWeight(rs[..|rs| - 1]) + Weight(rs[|rs| - 1])
  }

  /** Detection order of the three factors of poller/poller.py. */
  function Rank(r: Reason): nat
  {
    match r
    case KeywordHits(_) => 0
    case PriceAnomaly(_) => 1
    case HighActivity(_) => 2
    case KeywordsFound(_) => 0
    case VeryLowPrice => 1
  }

  /** Reasons appear in detection order, each factor at most once (ranks strictly increase). */
  predicate InDetectionOrder(rs: seq<Reason>)
  {
    forall i :: 0 <= i < |rs| - 1 ==> Rank(rs[i]) < Rank(rs[i + 1])
  }

  /** `float(item.get("price", {}).get("amount", 0))`; `None` where `float` raises. */
  function PriceOf(item: Listing): Option<real>
  {
    match item.amount
    case Num(v) => Some(v)
    case NonNumeric => None
  }

  /** `calculate_risk(item, seller_count, brand)` of poller/poller.py. `None`
      stands for the exception `float()` raises on a non-numeric amount,
      which this version does not catch. */
  function RiskV1(item: Listing, sellerCount: int, brand: string): (r: Option<Assessment>)
    ensures r.None? <==> item.amount.NonNumeric?
    ensures r.Some? ==> r.value == AssessV1(item, item.amount.value, sellerCount, brand)
  {
    match PriceOf(item)
    case None => None
    case Some(price) => Some(AssessV1(item, price, sellerCount, brand))
  }

  /** The score, reasons, matched keywords and price index of a listing whose
      amount converts to `price` (poller/poller.py:67-86). */
  function AssessV1(item: Listing, price: real, sellerCount: int, brand: string): Assessment
  {
    var rel := PriceIndex(price, ReferencePrice(brand));
    Factors(Matches(SUSPICIOUS_KEYWORDS, ScanText(item)), rel, PriceAnomalous(price, rel), sellerCount)
  }

  /** The assessment from the outcome of the three checks: the keywords
      found, the price index and whether it is anomalous, and the seller's
      count. Each triggered factor contributes one reason and its weight; the
      score is the total weight of the reported reasons, never more than 80,
      so the clamp at 100 never bites. */
  function Factors(found: seq<string>, rel: real, anomalous: bool, sellerCount: int): (a: Assessment)
    ensures a.found == found && a.relativeIndex == rel
    ensures a.score == TotalWeight(a.reasons)
    ensures a.score == 0 || a.score == 20 || a.score == 40 || a.score == 60 || a.score == 80
    ensures InDetectionOrder(a.reasons)
    ensures KeywordHits(found) in a.reasons <==> found != []
    ensures PriceAnomaly(rel) in a.reasons <==> anomalous
    ensures HighActivity(sellerCount) in a.reasons <==> sellerCount > SELLER_THRESHOLD
    ensures forall r :: r in a.reasons ==> r == KeywordHits(found) || r == PriceAnomaly(rel) || r == HighActivity(sellerCount)
  {
    var k := if found != [] then [KeywordHits(found)] else [];
    var p := if anomalous then [PriceAnomaly(rel)] else [];
    var s := if sellerCount > SELLER_THRESHOLD then [HighActivity(sellerCount)] else [];
    var score := (if found != [] then 20 else 0)
                 + (if anomalous then 40 else 0)
                 + (if sellerCount > SELLER_THRESHOLD then 20 else 0);
    ThreeFactors(k, p, s);
    FactorMembers(found, rel, anomalous, sellerCount, k, p, s);
    Assessment(if score < 100 then score else 100, k + p + s, found, rel)
  }

  /** Total weight and order of the reasons of poller/poller.py, one per triggered factor. */
  lemma ThreeFactors(k: seq<Reason>, p: seq<Reason>, s: seq<Reason>)
    requires |k| <= 1 && |p| <= 1 && |s| <= 1
    requires k != [] ==> k[0].KeywordHits?
    requires p != [] ==> p[0].PriceAnomaly?
    requires s != [] ==> s[0].HighActivity?
    ensures TotalWeight(k + p + s) == 20 * |k| + 40 * |p| + 20 * |s|
    ensures InDetectionOrder(k + p + s)
  {
    var kp := k + p;
    var kps := kp + s;
    WeightSnoc(k, p);
    WeightSnoc(kp, s);
    assert TotalWeight(k) == 20 * |k| by {
      if k != [] { assert k[..0] == []; }
    }
  }

  lemma WeightSnoc(a: seq<Reason>, b: seq<Reason>)
    requires |b| <= 1
    ensures TotalWeight(a + b) == TotalWeight(a) + if b == [] then 0 else Weight(b[0])
  {
    if b != [] {
      assert (a + b)[..|a + b| - 1] == a;
    } else {
      assert a + b == a;
    }
  }

  /** Each factor is reported iff it triggered: keywords iff some keyword matched,
      price iff the amount is anomalous for the brand, seller iff the count exceeds 20. */
  lemma RiskV1Factors(item: Listing, sellerCount: int, brand: string)
    requires item.amount.Num?
    ensures var a := RiskV1(item, sellerCount, brand).value;
      && (KeywordHits(a.found) in a.reasons <==> a.found != [])
      && a.found == Matches(SUSPICIOUS_KEYWORDS, ScanText(item))
      && a.relativeIndex == PriceIndex(item.amount.value, ReferencePrice(brand))
      && (PriceAnomaly(a.relativeIndex) in a.reasons <==> PriceAnomalous(item.amount.value, a.relativeIndex))
      && (HighActivity(sellerCount) in a.reasons <==> sellerCount > SELLER_THRESHOLD)
      && (forall r :: r in a.reasons ==> r == KeywordHits(a.found) || r == PriceAnomaly(a.relativeIndex)
                                         || r == HighActivity(sellerCount))
  {
  }

  /** Which reasons the three optional factor lists of `Factors` put together contain. */
  lemma FactorMembers(found: seq<string>, rel: real, anomalous: bool, sellerCount: int,
                      k: seq<Reason>, p: seq<Reason>, s: seq<Reason>)
    requires k == if found != [] then [KeywordHits(found)] else []
    requires p == if anomalous then [PriceAnomaly(rel)] else []
    requires s == if sellerCount > SELLER_THRESHOLD then [HighActivity(sellerCount)] else []
    ensures KeywordHits(found) in k + p + s <==> found != []
    ensures PriceAnomaly(rel) in k + p + s <==> anomalous
    ensures HighActivity(sellerCount) in k + p + s <==> sellerCount > SELLER_THRESHOLD
    ensures forall r :: r in k + p + s ==> r == KeywordHits(found) || r == PriceAnomaly(rel) || r == HighActivity(sellerCount)
  {
    assert forall r :: r in k + p + s <==> r in k || r in p || r in s;
  }

  /** The price factor at its two documented points for a Rolex (reference 4000):
      30 is anomalous (index 0.0075), 2000 is not (index 0.5). */
  lemma PriceFactorExamples(item: Listing)
    ensures item.amount == Num(30.0) ==> PriceAnomaly(30.0 / 4000.0) in RiskV1(item, 1, "Rolex").value.reasons
    ensures item.amount == Num(2000.0) ==>
      RiskV1(item, 1, "Rolex").value.relativeIndex == 0.5 &&
      forall r :: r in RiskV1(item, 1, "Rolex").value.reasons ==> !r.PriceAnomaly?
  {
    assert ReferencePrice("Rolex") == 4000;
  }

  /** The seller factor's strict boundary: 21 listings trigger it, 20 do not. */
  lemma SellerFactorBoundary(item: Listing, brand: string)
    requires item.amount.Num?
    ensures HighActivity(21) in RiskV1(item, 21, brand).value.reasons
    ensures forall r :: r in RiskV1(item, 20, brand).value.reasons ==> !r.HighActivity?
  {
  }

  /** However many keywords match, the keyword factor is one reason worth 20,
      and every matching keyword is listed in it. */
  lemma KeywordFactorOnce(item: Listing, sellerCount: int, brand: string)
    requires item.amount.Num?
    requires |Matches(SUSPICIOUS_KEYWORDS, ScanText(item))| >= 2
    ensures |set r | r in RiskV1(item, sellerCount, brand).value.reasons && r.KeywordHits?| == 1
    ensures RiskV1(item, sellerCount, brand).value.score >= 20
    ensures forall w :: w in SUSPICIOUS_KEYWORDS && Contains(ScanText(item), w) ==>
      w in RiskV1(item, sellerCount, brand).value.found
  {
    var price := item.amount.value;
    var rel := PriceIndex(price, ReferencePrice(brand));
    MatchesMembers(SUSPICIOUS_KEYWORDS, ScanText(item));
    OneKeywordReason(Matches(SUSPICIOUS_KEYWORDS, ScanText(item)), rel, PriceAnomalous(price, rel), sellerCount);
  }

  lemma OneKeywordReason(found: seq<string>, rel: real, anomalous: bool, sellerCount: int)
    requires found != []
    ensures |set r | r in Factors(found, rel, anomalous, sellerCount).reasons && r.KeywordHits?| == 1
    ensures Factors(found, rel, anomalous, sellerCount).score >= 20
  {
    var a := Factors(found, rel, anomalous, sellerCount);
    assert a.reasons[0] == KeywordHits(found);
    assert (set r | r in a.reasons && r.KeywordHits?) == {KeywordHits(found)};
  }

  // ---------------------------------------------------------------------
  // pollerv2.py

  /** The low-price bonus of pollerv2.py: 10 when `0 < price < 50`; nothing
      when the amount is not a number (the exception is swallowed). */
  predicate VeryCheap(item: Listing)
  {
    item.amount.Num? && 0.0 < item.amount.value < 50.0
  }

  datatype AssessmentV2 = AssessmentV2(score: int, reasons: seq<Reason>, found: seq<string>)

  /** The value `calculate_risk(item)` of pollerv2.py returns. */
  function RiskV2(item: Listing): (r: AssessmentV2)
    ensures r.score == if TotalWeight(r.reasons) < 100 then TotalWeight(r.reasons) else 100
    ensures 0 <= r.score <= 100
    ensures (KeywordsFound(r.found) in r.reasons) <==> r.found != []
    ensures VeryLowPrice in r.reasons <==> VeryCheap(item)
    ensures forall x :: x in r.reasons ==> x == KeywordsFound(r.found) || x == VeryLowPrice
    ensures InDetectionOrder(r.reasons)
  {
    FactorsV2(Matches(SUSPICIOUS_KEYWORDS_V2, ScanText(item)), VeryCheap(item))
  }

  /** The assessment of pollerv2.py from the keywords found and the low-price
      check: 20 per keyword, 10 for a very low price, saturated at 100. */
  function FactorsV2(found: seq<string>, cheap: bool): (r: AssessmentV2)
    ensures r.found == found
    ensures r.score == if TotalWeight(r.reasons) < 100 then TotalWeight(r.reasons) else 100
    ensures (KeywordsFound(found) in r.reasons) <==> found != []
    ensures VeryLowPrice in r.reasons <==> cheap
    ensures forall x :: x in r.reasons ==> x == KeywordsFound(found) || x == VeryLowPrice
    ensures InDetectionOrder(r.reasons)
  {
    var raw := 20 * |found| + (if cheap then 10 else 0);
    var r1 := if found != [] then [KeywordsFound(found)] else [];
    var r2 := r1 + if cheap then [VeryLowPrice] else [];
    assert TotalWeight(r1) == 20 * |found|;
    assert cheap ==> r2[..|r2| - 1] == r1;
    AssessmentV2(if raw < 100 then raw else 100, r2, found)
  }

  /** The headline of `calculate_risk` in pollerv2.py: the keywords found are
      those of the v2 list occurring in the scanned text, in list order, and the
      score is `min(20 * len(found) + (10 if 0 < price < 50 else 0), 100)`. */
  lemma RiskV2Factors(item: Listing)
    ensures var a := RiskV2(item);
      && a.found == Matches(SUSPICIOUS_KEYWORDS_V2, ScanText(item))
      && var raw := 20 * |a.found| + (if VeryCheap(item) then 10 else 0);
         a.score == if raw < 100 then raw else 100
  {
  }

  /** The loop of `calculate_risk` in pollerv2.py: 20 per matching keyword,
      then the reasons and the low-price bonus, saturated at 100. */
  method CalculateRiskV2(item: Listing) returns (score: int, reasons: seq<Reason>, found: seq<string>)
    ensures AssessmentV2(score, reasons, found) == RiskV2(item)
  {
    score, found := ScoreKeywords(SUSPICIOUS_KEYWORDS_V2, ScanText(item));
    score, reasons := ScorePriceV2(score, found, VeryCheap(item));
  }

  /** The rest of `calculate_risk` in pollerv2.py once the keywords are
      scored: the keyword reason, 10 more for a very low price, the cap. */
  method ScorePriceV2(keywordScore: int, found: seq<string>, cheap: bool) returns (score: int, reasons: seq<Reason>)
    requires keywordScore == 20 * |found|
    ensures AssessmentV2(score, reasons, found) == FactorsV2(found, cheap)
  {
    score := keywordScore;
    reasons := [];
    if found != [] {
      reasons := reasons + [KeywordsFound(found)];
    }
    if cheap {
      score := score + 10;
      reasons := reasons + [VeryLowPrice];
    }
    score := if score < 100 then score else 100;
  }

  /** The keyword loop of `calculate_risk` in pollerv2.py: 20 for each
      keyword of `keywords` found in `text`, which is recorded in list order. */
  method ScoreKeywords(keywords: seq<string>, text: string) returns (score: int, found: seq<string>)
    ensures found == Matches(keywords, text) && score == 20 * |found|
  {
    score := 0;
    found := [];
    var i := 0;
    while i < |keywords|
      invariant 0 <= i <= |keywords|
      invariant found == Matches(keywords[..i], text)
      invariant score == 20 * |found|
    {
      var word := keywords[i];
      assert keywords[..i + 1][..i] == keywords[..i];
      if Contains(text, word) {
        score := score + 20;
        found := found + [word];
      }
      i := i + 1;
    }
    assert keywords[..i] == keywords;
  }

  /** Each matching keyword is worth 20: five matches already saturate the score. */
  lemma {:induction false} ScoreV2Saturates(item: Listing)
    requires |Matches(SUSPICIOUS_KEYWORDS_V2, ScanText(item))| >= 5
    ensures RiskV2(item).score == 100
  {
  }

  /** "urgente" contains "urge", so a text with "urgente" scores both keywords. */
  lemma {:induction false} UrgenteCountsTwice(item: Listing)
    requires Contains(ScanText(item), "urgente")
    ensures "urge" in RiskV2(item).found && "urgente" in RiskV2(item).found
    ensures RiskV2(item).score >= 40
  {
    ContainsPrefix(ScanText(item), "urgente", "urge");
    MatchesMembers(SUSPICIOUS_KEYWORDS_V2, ScanText(item));
    var found := RiskV2(item).found;
    assert "urge" in SUSPICIOUS_KEYWORDS_V2 && "urgente" in SUSPICIOUS_KEYWORDS_V2;
    assert "urge" != "urgente";
    assert {"urge", "urgente"} <= set w | w in found;
    CardinalityOfMembers(found, {"urge", "urgente"});
  }

  lemma {:induction false} CardinalityOfMembers<T>(s: seq<T>, xs: set<T>)
    requires xs <= set w | w in s
    ensures |xs| <= |s|
  {
    if s != [] {
      var s' := s[..|s| - 1];
      assert s == s' + [s[|s| - 1]];
      CardinalityOfMembers(s', xs - {s[|s| - 1]});
    }
  }

  /** A non-numeric amount changes nothing: the result is that of a zero amount. */
  lemma UnparseablePriceAddsNothing(item: Listing)
    requires item.amount.NonNumeric?
    ensures RiskV2(item) == RiskV2(item.(amount := Num(0.0)))
  {
  }
}
