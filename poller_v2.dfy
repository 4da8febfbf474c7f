/** The poll cycle of pollerv2.py: seed the process-wide seen-id ledger from the
    day's partition (a single JSON array), query every target keyword, skip
    listings already seen, enrich a copy of each new one, and rewrite the whole
    array when at least one listing is new.

    The partition's parse result, the fetch results (one list per keyword, in
    keyword order) and the clock are inputs; what would be written is part of
    the result. The clock is `clock(k)`, the epoch milliseconds read when the
    k-th new listing of the cycle (from 0) is stamped. */
module PollerV2 {
  import opened Text
  import opened Records
  import opened Risk

  const TARGET_KEYWORDS_V2: seq<string> := ["Rolex", "Omega", "Tag Heuer", "Breitling", "Hublot", "Seiko", "Tissot"]

  /** `get_daily_filename()`: "wallapop_watches_YYYYMMDD.json", in the working directory. */
  function DailyFilename(year: nat, month: nat, day: nat): (name: string)
    requires 1000 <= year <= 9999 && 1 <= month <= 12 && 1 <= day <= 31
    ensures |name| == |"wallapop_watches_"| + 8 + |".json"|
    ensures name[..17] == "wallapop_watches_" && name[25..] == ".json"
    ensures name[17..25] == DateStamp(year, month, day)
  {
    "wallapop_watches_" + DateStamp(year, month, day) + ".json"
  }

  /** Distinct days are written to distinct partitions. */
  lemma DailyFilenameInjective(y1: nat, m1: nat, d1: nat, y2: nat, m2: nat, d2: nat)
    requires 1000 <= y1 <= 9999 && 1 <= m1 <= 12 && 1 <= d1 <= 31
    requires 1000 <= y2 <= 9999 && 1 <= m2 <= 12 && 1 <= d2 <= 31
    requires DailyFilename(y1, m1, d1) == DailyFilename(y2, m2, d2)
    ensures y1 == y2 && m1 == m2 && d1 == d2
  {
    DateStampRoundTrip(y1, m1, d1);
    DateStampRoundTrip(y2, m2, d2);
    assert DateStamp(y1, m1, d1) == DailyFilename(y1, m1, d1)[17..25];
  }

  /** `clean_timestamp(ts)`: a non-zero number becomes the ISO text of that
      instant, or null when the conversion fails; anything else is returned as is. */
  function CleanTimestamp(ts: Stamp): (r: Stamp)
    ensures !(ts.Millis? && ts.ms != 0.0) ==> r == ts
    ensures ts.Millis? && ts.ms != 0.0 ==> (r.Iso? && r.ms == ts.ms) || r.Null?
    ensures ts.Millis? && ts.ms != 0.0 ==> (r.Null? <==> !InClockRange(ts.ms))
  {
    if ts.Millis? && ts.ms != 0.0 then
      if InClockRange(ts.ms) then Iso(ts.ms) else Null
    else ts
  }

  /** Cleaning is idempotent: a cleaned stamp is never a number other than 0. */
  lemma CleanTimestampIdempotent(ts: Stamp)
    ensures CleanTimestamp(CleanTimestamp(ts)) == CleanTimestamp(ts)
  {
  }

  /** What the partition holds when the cycle starts: no file, text that is not
      JSON, a JSON array, or some other JSON value. `sized` tells an object or a
      string, which has a `len()`, from a number, a boolean or null, which has not. */
  datatype Stored = Missing | Malformed | Array(items: seq<JsonValue>) | NotArray(sized: bool)

  /** `current_data` after loading: a list, or the non-list value that was read,
      with or without a `len()`. */
  datatype Current = List(items: seq<JsonValue>) | NotList(sized: bool)

  /** The `for item in current_data` loop of `load_existing_data`
      (pollerv2.py:78-80). An object with an "id" key adds its id (null
      included). A string containing "id" makes `item["id"]` raise, and any
      other scalar makes `"id" in item` raise: either stops the loop, and the
      error is swallowed with the ids added so far kept. */
  function SeedFrom(seen: set<Option<string>>, items: seq<JsonValue>): (r: set<Option<string>>)
    ensures seen <= r <= seen + KeyedIds(items)
    decreases |items|
  {
    if items == [] then seen
    else
      KeyedIdsFront(items);
      if items[0].Obj? then
        var doc := items[0].listing;
        SeedFrom(if doc.id.HasKey() then seen + {doc.id.Get()} else seen, items[1..])
      else if items[0].Str? && !Contains(items[0].s, "id") then SeedFrom(seen, items[1..])
      else seen
  }

  /** The ids with an "id" key among some stored objects. */
  function KeyedIds(items: seq<JsonValue>): set<Option<string>>
  {
    set i | 0 <= i < |items| && items[i].Obj? && items[i].listing.id.HasKey() :: items[i].listing.id.Get()
  }

  lemma KeyedIdsFront(items: seq<JsonValue>)
    requires items != []
    ensures KeyedIds(items)
            == (if items[0].Obj? && items[0].listing.id.HasKey() then {items[0].listing.id.Get()} else {})
               + KeyedIds(items[1..])
  {
    forall x | x in KeyedIds(items)
      ensures x in (if items[0].Obj? && items[0].listing.id.HasKey() then {items[0].listing.id.Get()} else {}) + KeyedIds(items[1..])
    {
      var i :| 0 <= i < |items| && items[i].Obj? && items[i].listing.id.HasKey() && items[i].listing.id.Get() == x;
      if i > 0 {
        assert items[1..][i - 1] == items[i];
      }
    }
    forall x | x in KeyedIds(items[1..]) ensures x in KeyedIds(items) {
      var i :| 0 <= i < |items[1..]| && items[1..][i].Obj? && items[1..][i].listing.id.HasKey() && items[1..][i].listing.id.Get() == x;
      assert items[i + 1] == items[1..][i];
    }
  }

  /** `load_existing_data()`: the ledger afterwards and `current_data`. A JSON
      value that is not an array is returned as it is, without seeding: iterating
      an object yields its keys and a string its characters, and a key holding
      "id" makes `item["id"]` raise, while a number, a boolean or null cannot be
      iterated; the outer handler swallows both. */
  function LoadExisting(seen: set<Option<string>>, stored: Stored): (r: (set<Option<string>>, Current))
    ensures seen <= r.0
    ensures stored.Missing? || stored.Malformed? ==> r == (seen, List([]))
    ensures stored.NotArray? ==> r == (seen, NotList(stored.sized))
    ensures stored.Array? ==> r.1 == List(stored.items)
  {
    match stored
    case Missing => (seen, List([]))
    case Malformed => (seen, List([]))
    case Array(items) => SeedGrows(seen, items); (SeedFrom(seen, items), List(items))
    case NotArray(sized) => (seen, NotList(sized))
  }

  lemma {:induction false} SeedGrows(seen: set<Option<string>>, items: seq<JsonValue>)
    ensures seen <= SeedFrom(seen, items)
    decreases |items|
  {
    if items != [] && items[0].Obj? {
      var doc := items[0].listing;
      SeedGrows(if doc.id.HasKey() then seen + {doc.id.Get()} else seen, items[1..]);
    } else if items != [] && items[0].Str? && !Contains(items[0].s, "id") {
      SeedGrows(seen, items[1..]);
    }
  }

  /** A partition of objects seeds the ledger with exactly the ids of its
      objects that have an "id" key. */
  lemma {:induction false} SeedObjects(seen: set<Option<string>>, items: seq<JsonValue>)
    requires forall i :: 0 <= i < |items| ==> items[i].Obj?
    ensures SeedFrom(seen, items) == seen + KeyedIds(items)
    decreases |items|
  {
    if items != [] {
      var doc := items[0].listing;
      var seen' := if doc.id.HasKey() then seen + {doc.id.Get()} else seen;
      SeedObjects(seen', items[1..]);
      KeyedIdsFront(items);
    } else {
      assert KeyedIds(items) == {};
    }
  }

  /** The record written for a new listing (pollerv2.py:130-142): a copy of the
      fetched listing whose present timestamps are cleaned, stamped with the
      crawl time, and given the v2 assessment and the keyword it was found by.
      No other field differs from the fetched listing. */
  function Enrich(item: Listing, brand: string, crawledAt: real): (doc: Listing)
    ensures doc.(createdAt := item.createdAt, modifiedAt := item.modifiedAt,
                 crawlDate := item.crawlDate, enrichment := item.enrichment) == item
    ensures doc.createdAt == CleanTimestamp(item.createdAt) && doc.modifiedAt == CleanTimestamp(item.modifiedAt)
    ensures doc.crawlDate == Iso(crawledAt)
    ensures doc.enrichment.Some? && doc.enrichment.value.brandDetected == brand
    ensures doc.enrichment.value.relativePriceIndex.None?
    ensures var a := RiskV2(item);
      (doc.enrichment.value.riskScore, doc.enrichment.value.riskFactors, doc.enrichment.value.suspiciousKeywords)
      == (a.score, a.reasons, a.found)
  {
    var a := RiskV2(item);
    item.(createdAt := CleanTimestamp(item.createdAt),
          modifiedAt := CleanTimestamp(item.modifiedAt),
          crawlDate := Iso(crawledAt),
          enrichment := Some(Enrichment(a.score, a.reasons, a.found, None, brand)))
  }

  /** The cycle's working state: the ledger and the listings added so far. */
  datatype Ledger = Ledger(seen: set<Option<string>>, added: seq<Listing>)

  /** Progress of the fetch loops: still running, or stopped by an exception
      with the ledger as it then stood. */
  datatype Step = Going(st: Ledger) | Raised(seen: set<Option<string>>)

  /** One fetched listing (pollerv2.py:122-144). A seen id is skipped; otherwise
      the id is marked and the enriched copy appended, which raises when
      `current_data` is not a list. */
  function Accept(isList: bool, st: Ledger, brand: string, clock: nat -> real, item: Listing): Step
  {
    var iid := item.id.Get();
    if iid in st.seen then Going(st)
    else if !isList then Raised(st.seen + {iid})
    else Going(Ledger(st.seen + {iid}, st.added + [Enrich(item, brand, clock(|st.added|))]))
  }

  /** Every listing's id joins the ledger; only a new one is appended, and its
      append raises exactly when no list was loaded. */
  lemma AcceptStep(isList: bool, st: Ledger, brand: string, clock: nat -> real, item: Listing)
    ensures var r := Accept(isList, st, brand, clock, item);
      && (r.Raised? <==> item.id.Get() !in st.seen && !isList)
      && (r.Raised? ==> r.seen == st.seen + {item.id.Get()})
      && (r.Going? ==> r.st.seen == st.seen + {item.id.Get()} && st.added <= r.st.added)
      && (r.Going? ==> (|r.st.added| == |st.added| + 1 <==> item.id.Get() !in st.seen))
      && (r.Going? ==> |r.st.added| <= |st.added| + 1)
  {
  }

  function Run(isList: bool, step: Step, brand: string, clock: nat -> real, items: seq<Listing>): Step
    decreases |items|
  {
    if items == [] || step.Raised? then step
    else Run(isList, Accept(isList, step.st, brand, clock, items[0]), brand, clock, items[1..])
  }

  function Sweep(isList: bool, step: Step, brands: seq<string>, clock: nat -> real, fetched: seq<seq<Listing>>): Step
    requires |brands| == |fetched|
    decreases |brands|
  {
    if brands == [] || step.Raised? then step
    else Sweep(isList, Run(isList, step, brands[0], clock, fetched[0]), brands[1..], clock, fetched[1..])
  }

  datatype Outcome =
    | Completed(current: seq<JsonValue>, newCount: nat, written: Option<seq<JsonValue>>)
    | NotAList   // the partition held an object or a string and nothing was new: nothing is written
    | Aborted

  /** The end of a cycle (pollerv2.py:149-158): the whole list is written back,
      as one JSON array, when at least one listing was added. With nothing new,
      `len(current_items)` raises for a number, a boolean or null. */
  function Close(current: Current, step: Step): (set<Option<string>>, Outcome)
  {
    match step
    case Raised(s) => (s, Aborted)
    case Going(st) =>
      match current
      case NotList(sized) => (st.seen, if sized then NotAList else Aborted)
      case List(stored) =>
        var items := stored + Objs(st.added);
        (st.seen, Completed(items, |st.added|, if |st.added| > 0 then Some(items) else None))
  }

  /** A cycle aborts exactly when an exception stopped the fetch loops or a
      number, a boolean or null was loaded; a completed cycle writes the list,
      and only when something is new. */
  lemma CloseOutcome(current: Current, step: Step)
    ensures Close(current, step).1 == Aborted <==> step.Raised? || current == NotList(false)
    ensures Close(current, step).1 == NotAList <==> step.Going? && current == NotList(true)
    ensures Close(current, step).1.Completed? ==> (Close(current, step).1.written.Some? <==> Close(current, step).1.newCount > 0)
  {
  }

  /** One `poll_cycle()`: the ledger afterwards and the outcome. */
  function Cycle(seen: set<Option<string>>, stored: Stored, fetched: seq<seq<Listing>>, clock: nat -> real)
    : (set<Option<string>>, Outcome)
    requires |fetched| == |TARGET_KEYWORDS_V2|
  {
    var (seen0, current) := LoadExisting(seen, stored);
    Close(current, Sweep(current.List?, Going(Ledger(seen0, [])), TARGET_KEYWORDS_V2, clock, fetched))
  }

  /** The poller process: `SEEN_IDS` is its only state that outlives a cycle. */
  class Poller {
    var seenIds: set<Option<string>>

    constructor ()
      ensures seenIds == {}
    {
      seenIds := {};
    }

    /** `load_existing_data()` (pollerv2.py:68-86). */
    method LoadExistingData(stored: Stored) returns (currentData: Current)
      modifies this
      ensures (seenIds, currentData) == LoadExisting(old(seenIds), stored)
    {
      if stored.Missing? || stored.Malformed? {
        return List([]);
      }
      if stored.NotArray? {
        return NotList(stored.sized);
      }
      var items := stored.items;
      currentData := List(items);
      var i := 0;
      assert items[0..] == items;
      while i < |items|
        invariant 0 <= i <= |items|
        invariant SeedFrom(old(seenIds), items) == SeedFrom(seenIds, items[i..])
      {
        assert items[i..][1..] == items[i + 1..];
        var item := items[i];
        if item.Obj? {
          if item.listing.id.HasKey() {
            seenIds := seenIds + {item.listing.id.Get()};
          }
        } else if item.Str? && !Contains(item.s, "id") {
        } else {
          return;
        }
        i := i + 1;
      }
    }

    method PollCycle(stored: Stored, fetched: seq<seq<Listing>>, clock: nat -> real) returns (out: Outcome)
      requires |fetched| == |TARGET_KEYWORDS_V2|
      modifies this
      ensures (seenIds, out) == Cycle(old(seenIds), stored, fetched, clock)
    {
      var currentData := LoadExistingData(stored);
      var raised, newItems, added, newCount := SweepKeywords(currentData.List?, TARGET_KEYWORDS_V2, clock, fetched);
      if raised {
        return Aborted;
      }
      out := Save(currentData, newItems, added, newCount);
    }

    /** The keyword loop of `poll_cycle` (pollerv2.py:117-146), from an empty
        list of new listings; an exception ends it. */
    method SweepKeywords(isList: bool, brands: seq<string>, clock: nat -> real, fetched: seq<seq<Listing>>)
      returns (raised: bool, newItems: seq<JsonValue>, ghost added: seq<Listing>, newCount: nat)
      requires |fetched| == |brands|
      modifies this
      ensures newItems == Objs(added) && newCount == |added|
      ensures Sweep(isList, Going(Ledger(old(seenIds), [])), brands, clock, fetched)
              == if raised then Raised(seenIds) else Going(Ledger(seenIds, added))
    {
      added, newItems, newCount := [], [], 0;
      raised := false;
      assert brands[0..] == brands && fetched[0..] == fetched;
      var b := 0;
      while b < |brands|
        invariant 0 <= b <= |brands|
        invariant Sweep(isList, Going(Ledger(old(seenIds), [])), brands, clock, fetched)
                  == Sweep(isList, Going(Ledger(seenIds, added)), brands[b..], clock, fetched[b..])
        invariant newItems == Objs(added) && newCount == |added|
      {
        assert brands[b..][1..] == brands[b + 1..];
        assert fetched[b..][1..] == fetched[b + 1..];
        raised, newItems, added, newCount := RunKeyword(isList, brands[b], clock, fetched[b], newItems, added, newCount);
        if raised {
          return;
        }
        b := b + 1;
      }
    }

    /** The end of `poll_cycle` (pollerv2.py:148-158), once the fetch loops
        are through: write the list back when something is new. */
    method Save(currentData: Current, newItems: seq<JsonValue>, ghost added: seq<Listing>, newCount: nat)
      returns (out: Outcome)
      requires newItems == Objs(added) && newCount == |added|
      ensures out == Close(currentData, Going(Ledger(seenIds, added))).1
    {
      if currentData.NotList? {
        // nothing was appended, so `len(current_items)` is reached
        if currentData.sized {
          return NotAList;
        }
        return Aborted;
      }
      var currentItems := currentData.items + newItems;
      if newCount > 0 {
        out := Completed(currentItems, newCount, Some(currentItems));
      } else {
        out := Completed(currentItems, newCount, None);
      }
    }

    /** The listings fetched for one keyword (pollerv2.py:121-144). */
    method RunKeyword(isList: bool, brand: string, clock: nat -> real, items: seq<Listing>,
                      new0: seq<JsonValue>, ghost added0: seq<Listing>, count0: nat)
      returns (raised: bool, newItems: seq<JsonValue>, ghost added: seq<Listing>, newCount: nat)
      requires new0 == Objs(added0) && count0 == |added0|
      modifies this
      ensures newItems == Objs(added) && newCount == |added|
      ensures Run(isList, Going(Ledger(old(seenIds), added0)), brand, clock, items)
              == if raised then Raised(seenIds) else Going(Ledger(seenIds, added))
    {
      newItems, added, newCount := new0, added0, count0;
      raised := false;
      var i := 0;
      assert items[0..] == items;
      while i < |items|
        invariant 0 <= i <= |items|
        invariant Run(isList, Going(Ledger(old(seenIds), added0)), brand, clock, items)
                  == Run(isList, Going(Ledger(seenIds, added)), brand, clock, items[i..])
        invariant newItems == Objs(added) && newCount == |added|
      {
        assert items[i..][1..] == items[i + 1..];
        var item := items[i];
        var itemId := item.id.Get();
        if itemId !in seenIds {
          seenIds := seenIds + {itemId};
          var doc := item;
          if !doc.createdAt.Absent? {
            doc := doc.(createdAt := CleanTimestamp(doc.createdAt));
          }
          if !doc.modifiedAt.Absent? {
            doc := doc.(modifiedAt := CleanTimestamp(doc.modifiedAt));
          }
          var score, reasons, found := CalculateRiskV2(item);
          doc := doc.(crawlDate := Iso(clock(newCount)),
                      enrichment := Some(Enrichment(score, reasons, found, None, brand)));
          if !isList {
            raised := true;
            return;
          }
          newItems := newItems + [Obj(doc)];
          added := added + [doc];
          newCount := newCount + 1;
        }
        i := i + 1;
      }
    }
  }
}
