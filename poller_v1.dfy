/** The poll cycle of poller/poller.py: load the day's JSON Lines partition into
    the process-wide seen-id ledger and a per-seller tally, query every target
    keyword, skip listings already seen, score and enrich the new ones, and
    rewrite the partition when at least one listing is new.

    The fetch results (one list per target keyword, in keyword order) and the
    partition's lines are inputs; what would be written is part of the result.
    Exceptions raised while enriching a listing escape `poll_cycle`; they are the
    `Aborted` outcome, which keeps every id the cycle had added to the ledger. */
module PollerV1 {
  import opened Text
  import opened Seqs
  import opened Records
  import opened Risk

  /** TARGET_KEYWORDS: the keys of REFERENCE_PRICES in declaration order. */
  const TARGET_KEYWORDS: seq<string> := [
    "Rolex", "Omega", "Breitling", "Hublot",
    "Patek Philippe", "Audemars Piguet", "Vacheron Constantin",
    "Jaeger-LeCoultre", "IWC", "Panerai", "Cartier",
    "Tudor", "Zenith", "Tag Heuer", "Longines",
    "Submariner", "Daytona", "Speedmaster", "Seamaster",
    "Nautilus", "Royal Oak", "Tank", "Santos",
    "Black Bay", "Carrera", "Monaco",
    "Seiko", "Tissot", "Hamilton", "Citizen"]

  /** `get_daily_filename()`: "logs/wallapop_watches_YYYYMMDD.json". */
  function DailyFilename(year: nat, month: nat, day: nat): (name: string)
    requires 1000 <= year <= 9999 && 1 <= month <= 12 && 1 <= day <= 31
    ensures |name| == |"logs/wallapop_watches_"| + 8 + |".json"|
    ensures name[..22] == "logs/wallapop_watches_" && name[30..] == ".json"
    ensures name[22..30] == DateStamp(year, month, day)
  {
    "logs/wallapop_watches_" + DateStamp(year, month, day) + ".json"
  }

  /** Distinct days are written to distinct partitions. */
  lemma DailyFilenameInjective(y1: nat, m1: nat, d1: nat, y2: nat, m2: nat, d2: nat)
    requires 1000 <= y1 <= 9999 && 1 <= m1 <= 12 && 1 <= d1 <= 31
    requires 1000 <= y2 <= 9999 && 1 <= m2 <= 12 && 1 <= d2 <= 31
    requires DailyFilename(y1, m1, d1) == DailyFilename(y2, m2, d2)
    ensures y1 == y2 && m1 == m2 && d1 == d2
  {
    DateStampRoundTrip(y1, m1, d1);
    DateStampRoundTrip(y2, m2, d2);
    assert DateStamp(y1, m1, d1) == DailyFilename(y1, m1, d1)[22..30];
  }

  /** `ts = item.get("created_at"); if ts: item["created_at"] = fromtimestamp(ts/1000).isoformat()`.
      `None` is the exception raised for a truthy non-number or an out-of-range number. */
  function ConvertCreated(ts: Stamp): (r: Option<Stamp>)
    ensures r.None? <==> (ts.Millis? && ts.ms != 0.0 && !InClockRange(ts.ms))
                         || (ts.Textual? && ts.s != "") || ts.Iso?
    ensures r.Some? && r.value != ts ==> ts.Millis? && r.value == Iso(ts.ms)
  {
    match ts
    case Absent => Some(ts)
    case Null => Some(ts)
    case Millis(ms) => if ms == 0.0 then Some(ts) else if InClockRange(ms) then Some(Iso(ms)) else None
    case Textual(s) => if s == "" then Some(ts) else None
    case Iso(_) => None
  }

  /** A user id counts towards the loaded tally only when it is truthy. */
  predicate Truthy(uid: Option<string>)
  {
    uid.Some? && uid.value != ""
  }

  function Bump(m: map<Option<string>, nat>, k: Option<string>): (r: map<Option<string>, nat>)
    ensures r.Keys == m.Keys + {k}
  {
    m[k := (if k in m then m[k] else 0) + 1]
  }

  /** The cycle's working state: the ledger (`SEEN_IDS`), `seller_counts`, the
      records loaded from the partition and the listings added by this cycle;
      `current_items` is `loaded` followed by `added`. */
  datatype Ledger = Ledger(
    seen: set<Option<string>>,
    sellers: map<Option<string>, nat>,
    loaded: seq<JsonValue>,
    added: seq<Listing>)

  /** One line of the partition (poller/poller.py:111-119): blank and malformed
      lines are skipped; a parsed value is appended; for an object, its id joins
      the ledger and a truthy seller id is tallied. A value that is not an object
      is appended and then makes `.get` raise, which the loop swallows. */
  function LoadLine(st: Ledger, line: FileLine): (r: Ledger)
    ensures st.seen <= r.seen && r.added == st.added
    ensures st.loaded <= r.loaded && |r.loaded| <= |st.loaded| + 1
    ensures |r.loaded| == |st.loaded| + 1 <==> !IsBlank(line.raw) && line.parsed.Value?
  {
    if IsBlank(line.raw) then st
    else match line.parsed
      case Malformed => st
      case Value(Obj(doc)) =>
        st.(loaded := st.loaded + [Obj(doc)],
            seen := st.seen + {doc.id.Get()},
            sellers := if Truthy(doc.userId) then Bump(st.sellers, doc.userId) else st.sellers)
      case Value(v) => st.(loaded := st.loaded + [v])
  }

  function LoadFrom(st: Ledger, lines: seq<FileLine>): Ledger
    decreases |lines|
  {
    if lines == [] then st else LoadFrom(LoadLine(st, lines[0]), lines[1..])
  }

  /** Progress of the fetch loops: still running, or stopped by an exception
      with the ledger as it then stood. */
  datatype Step = Going(st: Ledger) | Raised(seen: set<Option<string>>)

  /** The enriched record of a new listing (poller/poller.py:138-145). */
  function Enrich(item: Listing, created: Stamp, a: Assessment, brand: string): Listing
  {
    item.(createdAt := created,
          enrichment := Some(Enrichment(a.score, a.reasons, a.found, Some(a.relativeIndex), brand)))
  }

  /** The seller count a listing from `uid` is scored with: its tally so far plus one. */
  function NextCount(sellers: map<Option<string>, nat>, uid: Option<string>): nat
  {
    (if uid in sellers then sellers[uid] else 0) + 1
  }

  /** One fetched listing (poller/poller.py:128-147). A seen id is skipped before
      any other work; otherwise the id is marked, the seller tallied, the listing
      scored with its seller count and appended with its enrichment. */
  function Accept(st: Ledger, brand: string, item: Listing): Step
  {
    var iid := item.id.Get();
    if iid in st.seen then Going(st)
    else
      var seen := st.seen + {iid};
      var count := NextCount(st.sellers, item.userId);
      match RiskV1(item, count, brand)
      case None => Raised(seen)
      case Some(a) =>
        match ConvertCreated(item.createdAt)
        case None => Raised(seen)
        case Some(created) =>
          Going(Ledger(seen, st.sellers[item.userId := count], st.loaded,
                       st.added + [Enrich(item, created, a, brand)]))
  }

  /** Every listing's id joins the ledger, even when scoring or converting it
      raises; a known one is skipped, a new one appended when nothing raises. */
  lemma AcceptStep(st: Ledger, brand: string, item: Listing)
    ensures var r := Accept(st, brand, item);
      && (r.Raised? ==> item.id.Get() !in st.seen && r.seen == st.seen + {item.id.Get()})
      && (r.Going? ==> r.st.seen == st.seen + {item.id.Get()} && r.st.loaded == st.loaded)
      && (r.Going? ==> st.added <= r.st.added && |r.st.added| <= |st.added| + 1)
      && (r.Going? && |r.st.added| == |st.added| + 1 <==> r.Going? && item.id.Get() !in st.seen)
  {
  }

  /** A new listing whose amount is not a number makes the scorer raise. */
  lemma AcceptUnscored(st: Ledger, brand: string, item: Listing)
    requires item.id.Get() !in st.seen && item.amount.NonNumeric?
    ensures Accept(st, brand, item) == Raised(st.seen + {item.id.Get()})
  {
  }

  /** The listings fetched for one keyword, in order. */
  function Run(step: Step, brand: string, items: seq<Listing>): Step
    decreases |items|
  {
    if items == [] || step.Raised? then step
    else Run(Accept(step.st, brand, items[0]), brand, items[1..])
  }

  /** All keywords in order, each with its fetch result. */
  function Sweep(step: Step, brands: seq<string>, fetched: seq<seq<Listing>>): Step
    requires |brands| == |fetched|
    decreases |brands|
  {
    if brands == [] || step.Raised? then step
    else Sweep(Run(step, brands[0], fetched[0]), brands[1..], fetched[1..])
  }

  datatype Outcome =
    | Completed(current: seq<JsonValue>, newCount: nat, written: Option<seq<JsonValue>>)
    | Aborted

  /** The state after the partition has been read (nothing is read if it does not exist). */
  function Loaded(seen: set<Option<string>>, stored: Option<seq<FileLine>>): Ledger
  {
    var st := Ledger(seen, map[], [], []);
    if stored.Some? then LoadFrom(st, stored.value) else st
  }

  /** One `poll_cycle()`: the ledger afterwards and the outcome. */
  function Cycle(seen: set<Option<string>>, stored: Option<seq<FileLine>>, fetched: seq<seq<Listing>>)
    : (set<Option<string>>, Outcome)
    requires |fetched| == |TARGET_KEYWORDS|
  {
    Close(Sweep(Going(Loaded(seen, stored)), TARGET_KEYWORDS, fetched))
  }

  /** The end of a cycle (poller/poller.py:149-155): the ledger as it stands, and
      `current_items` written back when at least one listing was added. */
  function Close(step: Step): (set<Option<string>>, Outcome)
  {
    match step
    case Raised(s) => (s, Aborted)
    case Going(st) =>
      var current := st.loaded + Objs(st.added);
      (st.seen, Completed(current, |st.added|, if |st.added| > 0 then Some(current) else None))
  }

  /** A cycle aborts exactly when an exception stopped it; a completed cycle
      writes `current_items`, and only when something is new. */
  lemma CloseOutcome(step: Step)
    ensures Close(step).1.Aborted? <==> step.Raised?
    ensures Close(step).1.Completed? ==> (Close(step).1.written.Some? <==> Close(step).1.newCount > 0)
    ensures Close(step).1.Completed? && Close(step).1.written.Some? ==> Close(step).1.written.value == Close(step).1.current
  {
  }

  /** The poller process: `SEEN_IDS` is its only state that outlives a cycle. */
  class Poller {
    var seenIds: set<Option<string>>

    constructor ()
      ensures seenIds == {}
    {
      seenIds := {};
    }

    method PollCycle(stored: Option<seq<FileLine>>, fetched: seq<seq<Listing>>) returns (out: Outcome)
      requires |fetched| == |TARGET_KEYWORDS|
      modifies this
      ensures (seenIds, out) == Cycle(old(seenIds), stored, fetched)
    {
      var currentItems, sellerCounts := LoadStored(stored);
      ghost var loaded := currentItems;
      ghost var added: seq<Listing> := [];
      CycleStart(old(seenIds), stored, fetched);
      var newCount := 0;
      var b := 0;
      while b < |TARGET_KEYWORDS|
        invariant 0 <= b <= |TARGET_KEYWORDS|
        invariant Cycle(old(seenIds), stored, fetched)
                  == CycleTail(Going(Ledger(seenIds, sellerCounts, loaded, added)), b, fetched)
        invariant currentItems == loaded + Objs(added) && newCount == |added|
      {
        var raised;
        ghost var before := Ledger(seenIds, sellerCounts, loaded, added);
        raised, sellerCounts, currentItems, added, newCount :=
          RunKeyword(TARGET_KEYWORDS[b], fetched[b], loaded, sellerCounts, currentItems, added, newCount);
        CycleTailStep(before, b, fetched);
        if raised {
          RaisedStays(seenIds, b + 1, fetched);
          return Aborted;
        }
        b := b + 1;
      }
      CycleTailEnd(Ledger(seenIds, sellerCounts, loaded, added), fetched);
      if newCount > 0 {
        out := Completed(currentItems, newCount, Some(currentItems));
      } else {
        out := Completed(currentItems, newCount, None);
      }
    }

    /** Reads the partition, if it exists (poller/poller.py:106-119). */
    method LoadStored(stored: Option<seq<FileLine>>) returns (currentItems: seq<JsonValue>, sellerCounts: map<Option<string>, nat>)
      modifies this
      ensures Loaded(old(seenIds), stored) == Ledger(seenIds, sellerCounts, currentItems, [])
    {
      currentItems := [];
      sellerCounts := map[];
      if stored.Some? {
        var lines := stored.value;
        assert lines[0..] == lines;
        var i := 0;
        while i < |lines|
          invariant 0 <= i <= |lines|
          invariant Loaded(old(seenIds), stored) == LoadFrom(Ledger(seenIds, sellerCounts, currentItems, []), lines[i..])
        {
          LoadFromStep(Ledger(seenIds, sellerCounts, currentItems, []), lines, i);
          currentItems, sellerCounts := LoadStoredLine(lines[i], currentItems, sellerCounts);
          i := i + 1;
        }
      }
    }

    /** One line of the partition (poller/poller.py:110-119). */
    method LoadStoredLine(line: FileLine, current0: seq<JsonValue>, sellers0: map<Option<string>, nat>)
      returns (currentItems: seq<JsonValue>, sellerCounts: map<Option<string>, nat>)
      modifies this
      ensures LoadLine(Ledger(old(seenIds), sellers0, current0, []), line) == Ledger(seenIds, sellerCounts, currentItems, [])
    {
      currentItems, sellerCounts := current0, sellers0;
      if !IsBlank(line.raw) && line.parsed.Value? {
        var v := line.parsed.v;
        currentItems := currentItems + [v];
        if v.Obj? {
          seenIds := seenIds + {v.listing.id.Get()};
          var uid := v.listing.userId;
          if Truthy(uid) {
            sellerCounts := Bump(sellerCounts, uid);
          }
        }
      }
    }

    /** The listings fetched for one keyword (poller/poller.py:127-147). */
    method RunKeyword(brand: string, items: seq<Listing>, ghost loaded: seq<JsonValue>,
                      sellers0: map<Option<string>, nat>, current0: seq<JsonValue>, ghost added0: seq<Listing>, count0: nat)
      returns (raised: bool, sellerCounts: map<Option<string>, nat>, currentItems: seq<JsonValue>,
               ghost added: seq<Listing>, newCount: nat)
      requires current0 == loaded + Objs(added0) && count0 == |added0|
      modifies this
      ensures currentItems == loaded + Objs(added) && newCount == |added|
      ensures raised ==> Run(Going(Ledger(old(seenIds), sellers0, loaded, added0)), brand, items) == Raised(seenIds)
      ensures !raised ==> Run(Going(Ledger(old(seenIds), sellers0, loaded, added0)), brand, items)
                          == Going(Ledger(seenIds, sellerCounts, loaded, added))
    {
      sellerCounts, currentItems, added, newCount := sellers0, current0, added0, count0;
      raised := false;
      var i := 0;
      while i < |items|
        invariant 0 <= i <= |items|
        invariant Run(Going(Ledger(old(seenIds), sellers0, loaded, added0)), brand, items)
                  == Run(Going(Ledger(seenIds, sellerCounts, loaded, added)), brand, items[i..])
        invariant currentItems == loaded + Objs(added) && newCount == |added|
      {
        assert items[i..][1..] == items[i + 1..];
        raised, sellerCounts, currentItems, added, newCount :=
          AcceptItem(brand, items[i], loaded, sellerCounts, currentItems, added, newCount);
        if raised {
          return;
        }
        i := i + 1;
      }
    }

    /** One fetched listing (poller/poller.py:128-147). */
    method AcceptItem(brand: string, item: Listing, ghost loaded: seq<JsonValue>,
                      sellers0: map<Option<string>, nat>, current0: seq<JsonValue>, ghost added0: seq<Listing>, count0: nat)
      returns (raised: bool, sellerCounts: map<Option<string>, nat>, currentItems: seq<JsonValue>,
               ghost added: seq<Listing>, newCount: nat)
      requires current0 == loaded + Objs(added0) && count0 == |added0|
      modifies this
      ensures currentItems == loaded + Objs(added) && newCount == |added|
      ensures Accept(Ledger(old(seenIds), sellers0, loaded, added0), brand, item)
              == if raised then Raised(seenIds) else Going(Ledger(seenIds, sellerCounts, loaded, added))
    {
      sellerCounts, currentItems, added, newCount := sellers0, current0, added0, count0;
      raised := false;
      ghost var st0 := Ledger(seenIds, sellers0, loaded, added0);
      var iid := item.id.Get();
      if iid in seenIds {
        return;
      }
      seenIds := seenIds + {iid};
      var uid := item.userId;
      var sCount := (if uid in sellerCounts then sellerCounts[uid] else 0) + 1;
      assert sCount == NextCount(st0.sellers, uid);
      sellerCounts := sellerCounts[uid := sCount];
      var risk := RiskV1(item, sCount, brand);
      if risk.None? {
        raised := true;
        AcceptUnscored(st0, brand, item);
        return;
      }
      var created := ConvertCreated(item.createdAt);
      if created.None? {
        raised := true;
        return;
      }
      var doc := Enrich(item, created.value, risk.value, brand);
      currentItems := currentItems + [Obj(doc)];
      newCount := newCount + 1;
      added := added + [doc];
    }
  }

  /** The cycle's outcome once the keywords before index `b` are done. */
  function CycleTail(step: Step, b: nat, fetched: seq<seq<Listing>>): (set<Option<string>>, Outcome)
    requires b <= |TARGET_KEYWORDS| == |fetched|
  {
    Close(Sweep(step, TARGET_KEYWORDS[b..], fetched[b..]))
  }

  lemma RaisedStays(seen: set<Option<string>>, b: nat, fetched: seq<seq<Listing>>)
    requires b <= |TARGET_KEYWORDS| == |fetched|
    ensures CycleTail(Raised(seen), b, fetched) == (seen, Aborted)
  {
  }

  lemma CycleStart(seen: set<Option<string>>, stored: Option<seq<FileLine>>, fetched: seq<seq<Listing>>)
    requires |fetched| == |TARGET_KEYWORDS|
    ensures Cycle(seen, stored, fetched) == CycleTail(Going(Loaded(seen, stored)), 0, fetched)
  {
    assert TARGET_KEYWORDS[0..] == TARGET_KEYWORDS && fetched[0..] == fetched;
  }

  lemma CycleTailStep(st: Ledger, b: nat, fetched: seq<seq<Listing>>)
    requires b < |TARGET_KEYWORDS| == |fetched|
    ensures CycleTail(Going(st), b, fetched)
            == CycleTail(Run(Going(st), TARGET_KEYWORDS[b], fetched[b]), b + 1, fetched)
  {
    assert TARGET_KEYWORDS[b..][1..] == TARGET_KEYWORDS[b + 1..];
    assert fetched[b..][1..] == fetched[b + 1..];
  }

  lemma CycleTailEnd(st: Ledger, fetched: seq<seq<Listing>>)
    requires |TARGET_KEYWORDS| == |fetched|
    ensures var current := st.loaded + Objs(st.added);
      CycleTail(Going(st), |TARGET_KEYWORDS|, fetched)
      == (st.seen, Completed(current, |st.added|, if |st.added| > 0 then Some(current) else None))
  {
    assert TARGET_KEYWORDS[|TARGET_KEYWORDS|..] == [];
  }

  lemma LoadFromStep(st: Ledger, lines: seq<FileLine>, i: nat)
    requires i < |lines|
    ensures LoadFrom(st, lines[i..]) == LoadFrom(LoadLine(st, lines[i]), lines[i + 1..])
  {
    assert lines[i..][1..] == lines[i + 1..];
  }
}
