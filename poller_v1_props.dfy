/** What one poll cycle of poller/poller.py guarantees about the ledger, the
    records it appends and the partition it writes. */
module PollerV1Properties {
  import opened Seqs
  import opened Text
  import opened Records
  import opened Risk
  import opened PollerV1

  /** Listings of `docs` posted by seller `uid`. */
  function FromSeller(docs: seq<Listing>, uid: Option<string>): nat
  {
    if docs == [] then 0
    else FromSeller(docs[..|docs| - 1], uid) + (if docs[|docs| - 1].userId == uid then 1 else 0)
  }

  function Tally(m: map<Option<string>, nat>, uid: Option<string>): nat
  {
    if uid in m then m[uid] else 0
  }

  /** How the state of a cycle relates to the state right after loading:
      the loaded records are untouched; the ledger grew by exactly the ids of
      the added listings, which are pairwise distinct and were not in it before;
      each seller's tally grew by the number of added listings from that seller. */
  ghost predicate Fresh(st: Ledger, base: Ledger)
  {
    && st.loaded == base.loaded
    && base.seen <= st.seen
    && st.seen - base.seen == IdsOf(st.added)
    && (forall d :: d in st.added ==> d.id.Get() !in base.seen)
    && DistinctIds(st.added)
    && (forall uid :: Tally(st.sellers, uid) == Tally(base.sellers, uid) + FromSeller(st.added, uid))
  }

  lemma {:induction false} AcceptKeepsFresh(st: Ledger, base: Ledger, brand: string, item: Listing)
    requires base.added == [] && Fresh(st, base)
    ensures Accept(st, brand, item).Going? ==> Fresh(Accept(st, brand, item).st, base)
    ensures Accept(st, brand, item).Going? ==> Accept(st, brand, item).st.seen == st.seen + {item.id.Get()}
    ensures Accept(st, brand, item).Raised? ==> Accept(st, brand, item).seen == st.seen + {item.id.Get()}
  {
    var iid := item.id.Get();
    if iid !in st.seen && Accept(st, brand, item).Going? {
      var st' := Accept(st, brand, item).st;
      var doc := st'.added[|st'.added| - 1];
      assert st'.added == st.added + [doc];
      assert doc.id == item.id && doc.userId == item.userId;
      AddKeepsFresh(st, base, doc);
    }
  }

  /** Adding a listing whose id is not yet in the ledger keeps it `Fresh`. */
  lemma AddKeepsFresh(st: Ledger, base: Ledger, doc: Listing)
    requires base.added == [] && Fresh(st, base) && doc.id.Get() !in st.seen
    ensures Fresh(Ledger(st.seen + {doc.id.Get()}, st.sellers[doc.userId := NextCount(st.sellers, doc.userId)],
                         st.loaded, st.added + [doc]), base)
  {
    var st' := Ledger(st.seen + {doc.id.Get()}, st.sellers[doc.userId := NextCount(st.sellers, doc.userId)],
                      st.loaded, st.added + [doc]);
    AddDistinct(st.added, doc);
    forall uid ensures Tally(st'.sellers, uid) == Tally(base.sellers, uid) + FromSeller(st'.added, uid) {
      AddTally(st.sellers, st.added, doc, uid);
    }
  }

  lemma AddTally(sellers: map<Option<string>, nat>, added: seq<Listing>, doc: Listing, uid: Option<string>)
    ensures Tally(sellers[doc.userId := NextCount(sellers, doc.userId)], uid)
            == Tally(sellers, uid) + (if doc.userId == uid then 1 else 0)
    ensures FromSeller(added + [doc], uid) == FromSeller(added, uid) + (if doc.userId == uid then 1 else 0)
  {
    assert (added + [doc])[..|added|] == added;
  }

  lemma {:induction false} RunKeepsFresh(step: Step, base: Ledger, brand: string, items: seq<Listing>)
    requires base.added == []
    requires step.Going? ==> Fresh(step.st, base)
    requires step.Raised? ==> base.seen <= step.seen
    ensures var r := Run(step, brand, items);
      && (step.Going? && r.Going? ==> Fresh(r.st, base) && r.st.seen == step.st.seen + IdsOf(items))
      && (r.Raised? ==> base.seen <= r.seen)
    decreases |items|
  {
    if items != [] && step.Going? {
      var next := Accept(step.st, brand, items[0]);
      AcceptKeepsFresh(step.st, base, brand, items[0]);
      RunKeepsFresh(next, base, brand, items[1..]);
      assert items == [items[0]] + items[1..];
      assert IdsOf(items) == {items[0].id.Get()} + IdsOf(items[1..]);
    }
  }

  lemma {:induction false} SweepKeepsFresh(step: Step, base: Ledger, brands: seq<string>, fetched: seq<seq<Listing>>)
    requires base.added == [] && |brands| == |fetched|
    requires step.Going? ==> Fresh(step.st, base)
    requires step.Raised? ==> base.seen <= step.seen
    ensures var r := Sweep(step, brands, fetched);
      && (step.Going? && r.Going? ==> Fresh(r.st, base) && r.st.seen == step.st.seen + FetchedIds(fetched))
      && (r.Raised? ==> base.seen <= r.seen)
    decreases |brands|
  {
    if brands != [] && step.Going? {
      var next := Run(step, brands[0], fetched[0]);
      RunKeepsFresh(step, base, brands[0], fetched[0]);
      SweepKeepsFresh(next, base, brands[1..], fetched[1..]);
    }
  }

  /** The seller tally after loading counts the loaded objects with a truthy seller id. */
  function LoadedFrom(vals: seq<JsonValue>, uid: Option<string>): nat
  {
    if vals == [] then 0
    else LoadedFrom(vals[..|vals| - 1], uid)
         + (if vals[|vals| - 1].Obj? && Truthy(uid) && vals[|vals| - 1].listing.userId == uid then 1 else 0)
  }

  lemma {:induction false} LoadTallies(st: Ledger, lines: seq<FileLine>)
    requires forall uid :: Tally(st.sellers, uid) == LoadedFrom(st.loaded, uid)
    ensures forall uid :: Tally(LoadFrom(st, lines).sellers, uid) == LoadedFrom(LoadFrom(st, lines).loaded, uid)
    ensures st.seen <= LoadFrom(st, lines).seen
    ensures st.added == LoadFrom(st, lines).added
    decreases |lines|
  {
    if lines != [] {
      LoadLineTallies(st, lines[0]);
      LoadTallies(LoadLine(st, lines[0]), lines[1..]);
    }
  }

  lemma LoadLineTallies(st: Ledger, line: FileLine)
    requires forall uid :: Tally(st.sellers, uid) == LoadedFrom(st.loaded, uid)
    ensures var next := LoadLine(st, line);
      && (forall uid :: Tally(next.sellers, uid) == LoadedFrom(next.loaded, uid))
      && st.seen <= next.seen && st.added == next.added
  {
    if !IsBlank(line.raw) && line.parsed.Value? {
      var v := line.parsed.v;
      var next := LoadLine(st, line);
      assert next.loaded == st.loaded + [v];
      forall uid ensures Tally(next.sellers, uid) == LoadedFrom(next.loaded, uid) {
        LoadedFromSnoc(st.loaded, v, uid);
      }
    }
  }

  lemma LoadedFromSnoc(vals: seq<JsonValue>, v: JsonValue, uid: Option<string>)
    ensures LoadedFrom(vals + [v], uid)
            == LoadedFrom(vals, uid) + if v.Obj? && Truthy(uid) && v.listing.userId == uid then 1 else 0
  {
    assert (vals + [v])[..|vals|] == vals;
  }

  /** The ledger only grows, whatever happens in the cycle. */
  lemma CycleLedgerGrows(seen: set<Option<string>>, stored: Option<seq<FileLine>>, fetched: seq<seq<Listing>>)
    requires |fetched| == |TARGET_KEYWORDS|
    ensures seen <= Cycle(seen, stored, fetched).0
  {
    var base := Loaded(seen, stored);
    if stored.Some? {
      LoadTallies(Ledger(seen, map[], [], []), stored.value);
    }
    SweepKeepsFresh(Going(base), base, TARGET_KEYWORDS, fetched);
  }

  /** A stored line the loader turns into an object record. */
  predicate StoredObject(line: FileLine)
  {
    !IsBlank(line.raw) && line.parsed.Value? && line.parsed.v.Obj?
  }

  /** Loading only grows the ledger, and every stored object line leaves its
      id in it. */
  lemma {:induction false} LoadSeesStored(st: Ledger, lines: seq<FileLine>)
    ensures st.seen <= LoadFrom(st, lines).seen
    ensures forall i :: 0 <= i < |lines| && StoredObject(lines[i]) ==>
              lines[i].parsed.v.listing.id.Get() in LoadFrom(st, lines).seen
    decreases |lines|
  {
    if lines != [] {
      LoadSeesStored(LoadLine(st, lines[0]), lines[1..]);
      forall i | 0 <= i < |lines| && StoredObject(lines[i])
        ensures lines[i].parsed.v.listing.id.Get() in LoadFrom(st, lines).seen
      {
        if i > 0 {
          assert lines[i] == lines[1..][i - 1];
        }
      }
    }
  }

  /** A listing stored as an object line is never appended again: a completed
      cycle appends only listings whose ids differ from every stored object's. */
  lemma StoredNotReadded(seen: set<Option<string>>, lines: seq<FileLine>, fetched: seq<seq<Listing>>)
    requires |fetched| == |TARGET_KEYWORDS|
    requires Cycle(seen, Some(lines), fetched).1.Completed?
    ensures var out := Cycle(seen, Some(lines), fetched).1;
      forall i, j :: |Loaded(seen, Some(lines)).loaded| <= i < |out.current| && 0 <= j < |lines| && StoredObject(lines[j]) ==>
        out.current[i].Obj? && out.current[i].listing.id.Get() != lines[j].parsed.v.listing.id.Get()
  {
    LoadSeesStored(Ledger(seen, map[], [], []), lines);
    CompletedCycle(seen, Some(lines), fetched);
  }

  /** A completed outcome that keeps `loaded` as a prefix and appends exactly
      `newCount` enriched listings whose ids are pairwise distinct and not in
      `seen0`; the whole list is written iff something is new. */
  predicate AppendsFresh(out: Outcome, loaded: seq<JsonValue>, seen0: set<Option<string>>)
  {
    && out.Completed?
    && |out.current| == |loaded| + out.newCount
    && out.current[..|loaded|] == loaded
    && (forall i :: |loaded| <= i < |out.current| ==>
          out.current[i].Obj? && out.current[i].listing.enrichment.Some?
          && out.current[i].listing.id.Get() !in seen0)
    && (forall i, j :: |loaded| <= i < j < |out.current| ==>
          out.current[i].listing.id.Get() != out.current[j].listing.id.Get())
    && (out.written.Some? <==> out.newCount > 0)
    && (out.written.Some? ==> out.written.value == out.current)
  }

  /** A cycle that completes appends only fresh listings, none already in the
      ledger after loading, and leaves the ledger as the loaded ledger plus
      every fetched id. */
  lemma CompletedCycle(seen: set<Option<string>>, stored: Option<seq<FileLine>>, fetched: seq<seq<Listing>>)
    requires |fetched| == |TARGET_KEYWORDS|
    requires Cycle(seen, stored, fetched).1.Completed?
    ensures AppendsFresh(Cycle(seen, stored, fetched).1, Loaded(seen, stored).loaded, Loaded(seen, stored).seen)
    ensures Cycle(seen, stored, fetched).0 == Loaded(seen, stored).seen + FetchedIds(fetched)
  {
    var base := Loaded(seen, stored);
    if stored.Some? {
      LoadTallies(Ledger(seen, map[], [], []), stored.value);
    }
    CompletedSweep(base, TARGET_KEYWORDS, fetched);
  }

  lemma CompletedSweep(base: Ledger, brands: seq<string>, fetched: seq<seq<Listing>>)
    requires |fetched| == |brands| && base.added == []
    requires Close(Sweep(Going(base), brands, fetched)).1.Completed?
    ensures AppendsFresh(Close(Sweep(Going(base), brands, fetched)).1, base.loaded, base.seen)
    ensures Close(Sweep(Going(base), brands, fetched)).0 == base.seen + FetchedIds(fetched)
  {
    var step := Sweep(Going(base), brands, fetched);
    BaseFresh(base);
    SweepKeepsFresh(Going(base), base, brands, fetched);
    EnrichedOnly(base, brands, fetched);
    ClosedFresh(step, base);
  }

  lemma BaseFresh(base: Ledger)
    requires base.added == []
    ensures Fresh(base, base)
  {
    assert IdsOf([]) == {};
  }

  lemma ClosedFresh(step: Step, base: Ledger)
    requires step.Going? && Fresh(step.st, base)
    requires forall d :: d in step.st.added ==> d.enrichment.Some?
    ensures AppendsFresh(Close(step).1, base.loaded, base.seen)
    ensures Close(step).0 == step.st.seen
  {
    var st := step.st;
    var out := Close(step).1;
    assert out.current == base.loaded + Objs(st.added);
    forall i | |base.loaded| <= i < |out.current|
      ensures out.current[i] == Obj(st.added[i - |base.loaded|])
    {
    }
    forall i | |base.loaded| <= i < |out.current|
      ensures out.current[i].listing.enrichment.Some? && out.current[i].listing.id.Get() !in base.seen
    {
      assert st.added[i - |base.loaded|] in st.added;
    }
  }

  /** Every listing a cycle adds carries an enrichment. */
  lemma {:induction false} EnrichedOnly(base: Ledger, brands: seq<string>, fetched: seq<seq<Listing>>)
    requires |brands| == |fetched|
    requires forall d :: d in base.added ==> d.enrichment.Some?
    ensures Sweep(Going(base), brands, fetched).Going? ==>
      forall d :: d in Sweep(Going(base), brands, fetched).st.added ==> d.enrichment.Some?
    decreases |brands|
  {
    if brands != [] {
      var r := Run(Going(base), brands[0], fetched[0]);
      RunEnriched(Going(base), brands[0], fetched[0]);
      if r.Going? {
        EnrichedOnly(r.st, brands[1..], fetched[1..]);
      } else {
        assert Sweep(Going(base), brands, fetched) == Sweep(r, brands[1..], fetched[1..]);
      }
    }
  }

  lemma {:induction false} RunEnriched(step: Step, brand: string, items: seq<Listing>)
    requires step.Going? ==> forall d :: d in step.st.added ==> d.enrichment.Some?
    ensures Run(step, brand, items).Going? ==>
      forall d :: d in Run(step, brand, items).st.added ==> d.enrichment.Some?
    decreases |items|
  {
    if items != [] && step.Going? {
      AcceptEnriched(step.st, brand, items[0]);
      RunEnriched(Accept(step.st, brand, items[0]), brand, items[1..]);
    }
  }

  lemma AcceptEnriched(st: Ledger, brand: string, item: Listing)
    requires forall d :: d in st.added ==> d.enrichment.Some?
    ensures Accept(st, brand, item).Going? ==>
      forall d :: d in Accept(st, brand, item).st.added ==> d.enrichment.Some?
  {
    var next := Accept(st, brand, item);
    if next.Going? && next.st != st {
      var doc := next.st.added[|next.st.added| - 1];
      assert next.st.added == st.added + [doc];
      assert doc.enrichment.Some?;
    }
  }

  /** Seeing only known ids (for instance a partition that already holds them)
      adds nothing and writes nothing: the cycle is idempotent. */
  lemma {:induction false} NothingNewNoWrite(seen: set<Option<string>>, stored: Option<seq<FileLine>>, fetched: seq<seq<Listing>>)
    requires |fetched| == |TARGET_KEYWORDS|
    requires FetchedIds(fetched) <= Loaded(seen, stored).seen
    ensures Cycle(seen, stored, fetched) == (Loaded(seen, stored).seen, Completed(Loaded(seen, stored).loaded, 0, None))
  {
    var base := Loaded(seen, stored);
    if stored.Some? {
      LoadTallies(Ledger(seen, map[], [], []), stored.value);
    }
    KnownOnlySweep(base, TARGET_KEYWORDS, fetched);
    assert Objs([]) == [];
    assert base.loaded + [] == base.loaded;
    assert Close(Going(base)) == (base.seen, Completed(base.loaded, 0, None));
  }

  lemma {:induction false} KnownOnlySweep(st: Ledger, brands: seq<string>, fetched: seq<seq<Listing>>)
    requires |brands| == |fetched| && FetchedIds(fetched) <= st.seen
    ensures Sweep(Going(st), brands, fetched) == Going(st)
    decreases |brands|
  {
    if brands != [] {
      KnownOnlyRun(st, brands[0], fetched[0]);
      KnownOnlySweep(st, brands[1..], fetched[1..]);
    }
  }

  lemma {:induction false} KnownOnlyRun(st: Ledger, brand: string, items: seq<Listing>)
    requires IdsOf(items) <= st.seen
    ensures Run(Going(st), brand, items) == Going(st)
    decreases |items|
  {
    if items != [] {
      assert items[0] in items;
      assert IdsOf(items[1..]) <= IdsOf(items) by {
        forall d | d in items[1..] ensures d in items { }
      }
      KnownOnlyRun(st, brand, items[1..]);
    }
  }

  /** At every point of the cycle a seller's tally is the number of loaded
      records from that seller (with a truthy id) plus the number of listings
      the cycle has added for it, so a listing is scored with that number + 1. */
  lemma {:induction false} SellerTallies(seen: set<Option<string>>, stored: Option<seq<FileLine>>, fetched: seq<seq<Listing>>)
    requires |fetched| == |TARGET_KEYWORDS|
    requires Sweep(Going(Loaded(seen, stored)), TARGET_KEYWORDS, fetched).Going?
    ensures var st := Sweep(Going(Loaded(seen, stored)), TARGET_KEYWORDS, fetched).st;
      forall uid :: Tally(st.sellers, uid) == LoadedFrom(st.loaded, uid) + FromSeller(st.added, uid)
  {
    var base := Loaded(seen, stored);
    if stored.Some? {
      LoadTallies(Ledger(seen, map[], [], []), stored.value);
    }
    SweepKeepsFresh(Going(base), base, TARGET_KEYWORDS, fetched);
  }

  /** The seller count the `k`-th added listing is scored with: the seller's
      tally before the cycle, plus the listings the cycle added for that seller
      before this one, plus one. */
  function CountAt(sellers: map<Option<string>, nat>, added: seq<Listing>, k: nat): nat
    requires k < |added|
  {
    Tally(sellers, added[k].userId) + FromSeller(added[..k], added[k].userId) + 1
  }

  /** The listing's enrichment reports seller count `n` as the scorer does:
      a "High activity (n)" factor iff `n` exceeds the threshold, and no
      activity factor with another count. */
  predicate ReportsCount(doc: Listing, n: int)
  {
    && doc.enrichment.Some?
    && (HighActivity(n) in doc.enrichment.value.riskFactors <==> n > SELLER_THRESHOLD)
    && (forall r :: r in doc.enrichment.value.riskFactors && r.HighActivity? ==> r == HighActivity(n))
  }

  /** Every added listing reports the count it was scored with. */
  predicate ScoredInOrder(sellers: map<Option<string>, nat>, added: seq<Listing>)
  {
    forall k {:trigger CountAt(sellers, added, k)} :: 0 <= k < |added| ==> ReportsCount(added[k], CountAt(sellers, added, k))
  }

  lemma ScoredSnoc(sellers: map<Option<string>, nat>, added: seq<Listing>, doc: Listing)
    requires ScoredInOrder(sellers, added)
    requires ReportsCount(doc, Tally(sellers, doc.userId) + FromSeller(added, doc.userId) + 1)
    ensures ScoredInOrder(sellers, added + [doc])
  {
    var added' := added + [doc];
    forall k | 0 <= k < |added'| ensures ReportsCount(added'[k], CountAt(sellers, added', k)) {
      if k < |added| {
        assert added'[..k] == added[..k] && added'[k] == added[k];
        assert ReportsCount(added[k], CountAt(sellers, added, k));
      } else {
        assert added'[..k] == added;
      }
    }
  }

  lemma AcceptScored(st: Ledger, base: Ledger, brand: string, item: Listing)
    requires ScoredInOrder(base.sellers, st.added)
    requires Tally(st.sellers, item.userId) == Tally(base.sellers, item.userId) + FromSeller(st.added, item.userId)
    ensures Accept(st, brand, item).Going? ==> ScoredInOrder(base.sellers, Accept(st, brand, item).st.added)
  {
    if item.id.Get() !in st.seen && Accept(st, brand, item).Going? {
      var count := NextCount(st.sellers, item.userId);
      AcceptedDoc(st, brand, item);
      ActivityReported(item, count, brand);
      var doc := Accept(st, brand, item).st.added[|st.added|];
      ScoredSnoc(base.sellers, st.added, doc);
    }
  }

  /** A new listing that nothing raised on is appended, scored with its seller's next count. */
  lemma AcceptedDoc(st: Ledger, brand: string, item: Listing)
    requires item.id.Get() !in st.seen && Accept(st, brand, item).Going?
    ensures item.amount.Num?
    ensures var added := Accept(st, brand, item).st.added;
      && |added| == |st.added| + 1 && added == st.added + [added[|st.added|]]
      && added[|st.added|].userId == item.userId
      && added[|st.added|].enrichment.Some?
      && added[|st.added|].enrichment.value.riskFactors
         == RiskV1(item, NextCount(st.sellers, item.userId), brand).value.reasons
  {
  }

  /** The seller factor of a version-1 assessment, on its own. */
  lemma ActivityReported(item: Listing, n: int, brand: string)
    requires item.amount.Num?
    ensures var reasons := RiskV1(item, n, brand).value.reasons;
      && (HighActivity(n) in reasons <==> n > SELLER_THRESHOLD)
      && (forall r :: r in reasons && r.HighActivity? ==> r == HighActivity(n))
  {
    RiskV1Factors(item, n, brand);
  }

  lemma {:induction false} RunScored(step: Step, base: Ledger, brand: string, items: seq<Listing>)
    requires base.added == []
    requires step.Going? ==> Fresh(step.st, base) && ScoredInOrder(base.sellers, step.st.added)
    ensures var r := Run(step, brand, items);
      step.Going? && r.Going? ==> ScoredInOrder(base.sellers, r.st.added)
    decreases |items|
  {
    if items != [] && step.Going? {
      AcceptKeepsFresh(step.st, base, brand, items[0]);
      AcceptScored(step.st, base, brand, items[0]);
      RunScored(Accept(step.st, brand, items[0]), base, brand, items[1..]);
    }
  }

  lemma {:induction false} SweepScored(step: Step, base: Ledger, brands: seq<string>, fetched: seq<seq<Listing>>)
    requires base.added == [] && |brands| == |fetched|
    requires step.Going? ==> Fresh(step.st, base) && ScoredInOrder(base.sellers, step.st.added)
    ensures var r := Sweep(step, brands, fetched);
      step.Going? && r.Going? ==> ScoredInOrder(base.sellers, r.st.added)
    decreases |brands|
  {
    if brands != [] && step.Going? {
      RunKeepsFresh(step, base, brands[0], fetched[0]);
      RunScored(step, base, brands[0], fetched[0]);
      SweepScored(Run(step, brands[0], fetched[0]), base, brands[1..], fetched[1..]);
    }
  }

  /** Each added listing reports the count of its seller's loaded records with
      a truthy id, plus the listings added for that seller before it, plus one. */
  predicate CountsReported(st: Ledger)
  {
    forall k :: 0 <= k < |st.added| ==>
      ReportsCount(st.added[k], LoadedFrom(st.loaded, st.added[k].userId)
                                + FromSeller(st.added[..k], st.added[k].userId) + 1)
  }

  /** The `k`-th listing a cycle adds carries "High activity (n)" exactly when
      n > 20, where n counts the seller's loaded records with a truthy id, the
      listings added for the seller before it, and itself; no activity factor
      with another count appears. */
  lemma {:induction false} SellerCountReported(seen: set<Option<string>>, stored: Option<seq<FileLine>>, fetched: seq<seq<Listing>>)
    requires |fetched| == |TARGET_KEYWORDS|
    requires Sweep(Going(Loaded(seen, stored)), TARGET_KEYWORDS, fetched).Going?
    ensures CountsReported(Sweep(Going(Loaded(seen, stored)), TARGET_KEYWORDS, fetched).st)
  {
    if stored.Some? {
      LoadTallies(Ledger(seen, map[], [], []), stored.value);
    }
    SweepCounts(Loaded(seen, stored), TARGET_KEYWORDS, fetched);
  }

  lemma {:induction false} SweepCounts(base: Ledger, brands: seq<string>, fetched: seq<seq<Listing>>)
    requires base.added == [] && |brands| == |fetched|
    requires forall uid :: Tally(base.sellers, uid) == LoadedFrom(base.loaded, uid)
    requires Sweep(Going(base), brands, fetched).Going?
    ensures CountsReported(Sweep(Going(base), brands, fetched).st)
  {
    BaseFresh(base);
    SweepKeepsFresh(Going(base), base, brands, fetched);
    SweepScored(Going(base), base, brands, fetched);
    ScoredCounts(base, Sweep(Going(base), brands, fetched).st);
  }

  lemma {:induction false} ScoredCounts(base: Ledger, st: Ledger)
    requires st.loaded == base.loaded && ScoredInOrder(base.sellers, st.added)
    requires forall uid :: Tally(base.sellers, uid) == LoadedFrom(base.loaded, uid)
    ensures CountsReported(st)
  {
    forall k | 0 <= k < |st.added|
      ensures ReportsCount(st.added[k], LoadedFrom(st.loaded, st.added[k].userId)
                                        + FromSeller(st.added[..k], st.added[k].userId) + 1)
    {
      assert ReportsCount(st.added[k], CountAt(base.sellers, st.added, k));
    }
  }
}
