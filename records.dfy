/** The shapes of the JSON records that flow through the pipeline: a listing
    as returned by the marketplace search, the enrichment the poller attaches
    to it, and the lines of a stored partition. Only the fields the pipeline
    reads or writes are modelled; every other key is carried along unchanged
    by the source and is left out here. */
module Records {

  datatype Option<+T> = None | Some(value: T)
  {
    function GetOr(default: T): T
    {
      if Some? then value else default
    }
  }

  /** The "id" key of a record: absent, JSON null, or an identifier. */
  datatype IdField = NoId | NullId | Id(value: string)
  {
    /** `item.get("id")`: `None` for an absent key and for null alike. */
    function Get(): (r: Option<string>)
      ensures r.Some? <==> Id?
    {
      if Id? then Some(value) else None
    }

    /** `"id" in item` */
    predicate HasKey()
    {
      !NoId?
    }
  }

  /** A description arrives as plain text (search API) or as an object with an
      optional "original" text field (detail API). A missing description is
      `Plain("")`, the default every reader uses. */
  datatype Description = Plain(text: string) | Structured(original: Option<string>)

  /** The "amount" of the "price" object. A missing amount is `Num(0.0)`, the
      default every reader uses; `NonNumeric` is any amount `float()` rejects. */
  datatype Amount = Num(value: real) | NonNumeric

  /** A timestamp field ("created_at", "modified_at", "crawl_date"): absent, null,
      epoch milliseconds, some other text, or the ISO-8601 text of a local time
      given by its epoch milliseconds. */
  datatype Stamp = Absent | Null | Millis(ms: real) | Textual(s: string) | Iso(ms: real)

  /** One entry of "risk_factors"; the formatted text of each is left out. */
  datatype Reason =
    | KeywordHits(found: seq<string>)      // "Keywords: [...]"            (poller/poller.py)
    | PriceAnomaly(index: real)            // "Price anomaly (Index: x)"   (poller/poller.py)
    | HighActivity(count: int)             // "High activity (n)"          (poller/poller.py)
    | KeywordsFound(found: seq<string>)    // "Keywords found: [...]"      (pollerv2.py)
    | VeryLowPrice                         // "Very low price (<50)"       (pollerv2.py)

  /** The "enrichment" object attached at first ingestion. */
  datatype Enrichment = Enrichment(
    riskScore: int,
    riskFactors: seq<Reason>,
    suspiciousKeywords: seq<string>,
    relativePriceIndex: Option<real>,     // written by poller/poller.py only
    brandDetected: string)

  datatype Listing = Listing(
    id: IdField,
    title: Option<string>,
    description: Description,
    amount: Amount,
    userId: Option<string>,
    city: Option<string>,                 // "location" -> "city"
    webSlug: string,                      // "" when absent
    createdAt: Stamp,
    modifiedAt: Stamp,
    crawlDate: Stamp,
    enrichment: Option<Enrichment>)

  /** What `json.loads` yields: an object, a JSON string, or another scalar
      (number, boolean, null). Nested arrays are left out. */
  datatype JsonValue = Obj(listing: Listing) | Str(s: string) | Atom

  /** Listings as the JSON objects a poller appends to its partition. */
  function Objs(docs: seq<Listing>): (r: seq<JsonValue>)
    ensures |r| == |docs| && forall i :: 0 <= i < |docs| ==> r[i] == Obj(docs[i])
  {
    if docs == [] then [] else Objs(docs[..|docs| - 1]) + [Obj(docs[|docs| - 1])]
  }

  datatype Parsed = Malformed | Value(v: JsonValue)

  /** One line of a stored partition: its text, without the line terminator,
      and what parsing it as JSON gives. */
  datatype FileLine = FileLine(raw: string, parsed: Parsed)

  /** Text-mode line iteration never leaves a line break inside a line. */
  predicate NoLineBreak(s: string)
  {
    forall i :: 0 <= i < |s| ==> s[i] != '\n'
  }

  /** Epoch milliseconds `datetime.fromtimestamp` accepts (years 1 to 9999, UTC). */
  predicate InClockRange(ms: real)
  {
    -62135596800000.0 <= ms < 253402300800000.0
  }

  /** The `item.get("id")` values of some listings. */
  function IdsOf(docs: seq<Listing>): set<Option<string>>
  {
    set d | d in docs :: d.id.Get()
  }

  predicate DistinctIds(docs: seq<Listing>)
  {
    forall i, j :: 0 <= i < j < |docs| ==> docs[i].id.Get() != docs[j].id.Get()
  }

  /** Appending a listing with a new id keeps the ids pairwise distinct. */
  lemma AddDistinct(docs: seq<Listing>, doc: Listing)
    requires DistinctIds(docs) && doc.id.Get() !in IdsOf(docs)
    ensures DistinctIds(docs + [doc])
    ensures IdsOf(docs + [doc]) == IdsOf(docs) + {doc.id.Get()}
  {
    var docs' := docs + [doc];
    forall i, j | 0 <= i < j < |docs'| ensures docs'[i].id.Get() != docs'[j].id.Get() {
      if j == |docs| {
        assert docs'[i] in docs;
      }
    }
  }

  /** Every id in the fetch results of a cycle, one result list per keyword. */
  function FetchedIds(fetched: seq<seq<Listing>>): set<Option<string>>
  {
    if fetched == [] then {} else IdsOf(fetched[0]) + FetchedIds(fetched[1..])
  }
}
