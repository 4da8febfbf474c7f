/** What one poll cycle of pollerv2.py guarantees about the ledger, the records
    it appends and the array it writes. */
module PollerV2Properties {
  import opened Records
  import opened PollerV2

  /** How the state of a cycle relates to the state right after loading: the
      ledger grew by exactly the ids of the added listings, which are pairwise
      distinct and were not in it before, and the k-th added listing is enriched
      and stamped with the k-th clock reading. */
  predicate Fresh(st: Ledger, base: set<Option<string>>, clock: nat -> real)
  {
    && base <= st.seen
    && st.seen - base == IdsOf(st.added)
    && (forall d :: d in st.added ==> d.id.Get() !in base)
    && DistinctIds(st.added)
    && (forall k :: 0 <= k < |st.added| ==>
          st.added[k].crawlDate == Iso(clock(k)) && st.added[k].enrichment.Some?)
  }

  lemma {:induction false} AcceptKeepsFresh(st: Ledger, base: set<Option<string>>, brand: string, clock: nat -> real, item: Listing)
    requires Fresh(st, base, clock)
    ensures Accept(true, st, brand, clock, item).Going?
    ensures Fresh(Accept(true, st, brand, clock, item).st, base, clock)
    ensures Accept(true, st, brand, clock, item).st.seen == st.seen + {item.id.Get()}
  {
    var iid := item.id.Get();
    if iid !in st.seen {
      AddKeepsFresh(st, base, clock, Enrich(item, brand, clock(|st.added|)));
    }
  }

  /** Adding an enriched listing, stamped with the next clock reading, whose id
      is not yet in the ledger keeps it `Fresh`. */
  lemma AddKeepsFresh(st: Ledger, base: set<Option<string>>, clock: nat -> real, doc: Listing)
    requires Fresh(st, base, clock) && doc.id.Get() !in st.seen
    requires doc.crawlDate == Iso(clock(|st.added|)) && doc.enrichment.Some?
    ensures Fresh(Ledger(st.seen + {doc.id.Get()}, st.added + [doc]), base, clock)
  {
    var st' := Ledger(st.seen + {doc.id.Get()}, st.added + [doc]);
    AddDistinct(st.added, doc);
  }

  lemma {:induction false} RunKeepsFresh(step: Step, base: set<Option<string>>, brand: string, clock: nat -> real, items: seq<Listing>)
    requires step.Going? && Fresh(step.st, base, clock)
    ensures Run(true, step, brand, clock, items).Going?
    ensures Fresh(Run(true, step, brand, clock, items).st, base, clock)
    ensures Run(true, step, brand, clock, items).st.seen == step.st.seen + IdsOf(items)
    decreases |items|
  {
    if items != [] {
      var next := Accept(true, step.st, brand, clock, items[0]);
      AcceptKeepsFresh(step.st, base, brand, clock, items[0]);
      RunKeepsFresh(next, base, brand, clock, items[1..]);
      assert items == [items[0]] + items[1..];
      assert IdsOf(items) == {items[0].id.Get()} + IdsOf(items[1..]);
    } else {
      assert IdsOf(items) == {};
    }
  }

  lemma {:induction false} SweepKeepsFresh(step: Step, base: set<Option<string>>, brands: seq<string>, clock: nat -> real, fetched: seq<seq<Listing>>)
    requires |brands| == |fetched|
    requires step.Going? && Fresh(step.st, base, clock)
    ensures Sweep(true, step, brands, clock, fetched).Going?
    ensures Fresh(Sweep(true, step, brands, clock, fetched).st, base, clock)
    ensures Sweep(true, step, brands, clock, fetched).st.seen == step.st.seen + FetchedIds(fetched)
    decreases |brands|
  {
    if brands != [] {
      RunKeepsFresh(step, base, brands[0], clock, fetched[0]);
      SweepKeepsFresh(Run(true, step, brands[0], clock, fetched[0]), base, brands[1..], clock, fetched[1..]);
    }
  }

  /** A completed outcome that keeps `stored` as a prefix and appends exactly
      `newCount` enriched listings whose ids are pairwise distinct and not in
      `seen0`, the k-th stamped with the k-th clock reading; the whole list is
      written iff something is new. */
  predicate AppendsFresh(out: Outcome, stored: seq<JsonValue>, seen0: set<Option<string>>, clock: nat -> real)
  {
    && out.Completed?
    && |out.current| == |stored| + out.newCount
    && out.current[..|stored|] == stored
    && (forall i :: |stored| <= i < |out.current| ==>
          && out.current[i].Obj?
          && out.current[i].listing.enrichment.Some?
          && out.current[i].listing.crawlDate == Iso(clock(i - |stored|))
          && out.current[i].listing.id.Get() !in seen0)
    && (forall i, j :: |stored| <= i < j < |out.current| ==>
          out.current[i].listing.id.Get() != out.current[j].listing.id.Get())
    && (out.written.Some? <==> out.newCount > 0)
    && (out.written.Some? ==> out.written.value == out.current)
  }

  /** With a stored list, or none, the cycle always completes and appends only
      fresh listings; the ledger ends up as the loaded ledger plus every
      fetched id. */
  lemma CompletedCycle(seen: set<Option<string>>, stored: Stored, fetched: seq<seq<Listing>>, clock: nat -> real)
    requires |fetched| == |TARGET_KEYWORDS_V2|
    requires LoadExisting(seen, stored).1.List?
    ensures AppendsFresh(Cycle(seen, stored, fetched, clock).1, LoadExisting(seen, stored).1.items,
                         LoadExisting(seen, stored).0, clock)
    ensures Cycle(seen, stored, fetched, clock).0 == LoadExisting(seen, stored).0 + FetchedIds(fetched)
  {
    var seen0 := LoadExisting(seen, stored).0;
    var current := LoadExisting(seen, stored).1;
    CycleUnfold(seen, stored, fetched, clock);
    CompletedSweep(seen0, current.items, TARGET_KEYWORDS_V2, clock, fetched);
  }

  lemma CycleUnfold(seen: set<Option<string>>, stored: Stored, fetched: seq<seq<Listing>>, clock: nat -> real)
    requires |fetched| == |TARGET_KEYWORDS_V2|
    ensures var seen0 := LoadExisting(seen, stored).0; var current := LoadExisting(seen, stored).1;
      Cycle(seen, stored, fetched, clock)
      == Close(current, Sweep(current.List?, Going(Ledger(seen0, [])), TARGET_KEYWORDS_V2, clock, fetched))
  {
  }

  lemma CompletedSweep(seen0: set<Option<string>>, stored: seq<JsonValue>, brands: seq<string>, clock: nat -> real, fetched: seq<seq<Listing>>)
    requires |fetched| == |brands|
    ensures var r := Close(List(stored), Sweep(true, Going(Ledger(seen0, [])), brands, clock, fetched));
      AppendsFresh(r.1, stored, seen0, clock) && r.0 == seen0 + FetchedIds(fetched)
  {
    assert IdsOf([]) == {};
    SweepKeepsFresh(Going(Ledger(seen0, [])), seen0, brands, clock, fetched);
    var st := Sweep(true, Going(Ledger(seen0, [])), brands, clock, fetched).st;
    var out := Close(List(stored), Going(st)).1;
    assert out.current == stored + Objs(st.added);
    forall i | |stored| <= i < |out.current|
      ensures out.current[i] == Obj(st.added[i - |stored|])
      ensures st.added[i - |stored|].id.Get() !in seen0
    {
      assert st.added[i - |stored|] in st.added;
    }
  }

  /** When every fetched id is already known the cycle adds nothing and writes
      nothing: polling again is idempotent. A partition holding a number, a
      boolean or null still stops the cycle, at `len(current_items)`. */
  lemma NothingNewNoWrite(seen: set<Option<string>>, stored: Stored, fetched: seq<seq<Listing>>, clock: nat -> real)
    requires |fetched| == |TARGET_KEYWORDS_V2|
    requires FetchedIds(fetched) <= LoadExisting(seen, stored).0
    ensures var (seen0, current) := LoadExisting(seen, stored);
      Cycle(seen, stored, fetched, clock)
      == (seen0, match current
                 case List(items) => Completed(items, 0, None)
                 case NotList(sized) => if sized then NotAList else Aborted)
  {
    var (seen0, current) := LoadExisting(seen, stored);
    KnownOnlySweep(current.List?, Ledger(seen0, []), TARGET_KEYWORDS_V2, clock, fetched);
    assert Objs([]) == [];
    if current.List? {
      assert current.items + [] == current.items;
    }
  }

  lemma {:induction false} KnownOnlySweep(isList: bool, st: Ledger, brands: seq<string>, clock: nat -> real, fetched: seq<seq<Listing>>)
    requires |brands| == |fetched| && FetchedIds(fetched) <= st.seen
    ensures Sweep(isList, Going(st), brands, clock, fetched) == Going(st)
    decreases |brands|
  {
    if brands != [] {
      KnownOnlyRun(isList, st, brands[0], clock, fetched[0]);
      KnownOnlySweep(isList, st, brands[1..], clock, fetched[1..]);
    }
  }

  lemma {:induction false} KnownOnlyRun(isList: bool, st: Ledger, brand: string, clock: nat -> real, items: seq<Listing>)
    requires IdsOf(items) <= st.seen
    ensures Run(isList, Going(st), brand, clock, items) == Going(st)
    decreases |items|
  {
    if items != [] {
      assert items[0] in items;
      assert IdsOf(items[1..]) <= IdsOf(items) by {
        forall d | d in items[1..] ensures d in items { }
      }
      KnownOnlyRun(isList, st, brand, clock, items[1..]);
    }
  }

  /** A partition holding a JSON value that is not an array makes the first
      new listing's append raise, after its id has joined the ledger. */
  lemma NotArrayAborts(seen: set<Option<string>>, sized: bool, fetched: seq<seq<Listing>>, clock: nat -> real)
    requires |fetched| == |TARGET_KEYWORDS_V2|
    requires !(FetchedIds(fetched) <= seen)
    ensures Cycle(seen, NotArray(sized), fetched, clock).1 == Aborted
    ensures seen < Cycle(seen, NotArray(sized), fetched, clock).0
  {
    FirstNewRaises(Ledger(seen, []), TARGET_KEYWORDS_V2, clock, fetched);
  }

  /** A partition holding a number, a boolean or null stops every cycle: by the
      first new listing's append, or else by `len(current_items)`. An object or
      a string stops it exactly when some fetched id is new. */
  lemma NotArrayOutcome(seen: set<Option<string>>, sized: bool, fetched: seq<seq<Listing>>, clock: nat -> real)
    requires |fetched| == |TARGET_KEYWORDS_V2|
    ensures Cycle(seen, NotArray(sized), fetched, clock).1 == Aborted <==> !sized || !(FetchedIds(fetched) <= seen)
    ensures Cycle(seen, NotArray(sized), fetched, clock).1 != Aborted ==> Cycle(seen, NotArray(sized), fetched, clock).1 == NotAList
  {
    if FetchedIds(fetched) <= seen {
      NothingNewNoWrite(seen, NotArray(sized), fetched, clock);
    } else {
      NotArrayAborts(seen, sized, fetched, clock);
    }
  }

  lemma {:induction false} FirstNewRaises(st: Ledger, brands: seq<string>, clock: nat -> real, fetched: seq<seq<Listing>>)
    requires |brands| == |fetched| && !(FetchedIds(fetched) <= st.seen)
    ensures Sweep(false, Going(st), brands, clock, fetched).Raised?
    ensures st.seen < Sweep(false, Going(st), brands, clock, fetched).seen
    decreases |brands|
  {
    if IdsOf(fetched[0]) <= st.seen {
      KnownOnlyRun(false, st, brands[0], clock, fetched[0]);
      FirstNewRaises(st, brands[1..], clock, fetched[1..]);
    } else {
      FirstNewInRun(st, brands[0], clock, fetched[0]);
      var r := Run(false, Going(st), brands[0], clock, fetched[0]);
      assert Sweep(false, Going(st), brands, clock, fetched) == Sweep(false, r, brands[1..], clock, fetched[1..]);
    }
  }

  lemma {:induction false} FirstNewInRun(st: Ledger, brand: string, clock: nat -> real, items: seq<Listing>)
    requires !(IdsOf(items) <= st.seen)
    ensures Run(false, Going(st), brand, clock, items).Raised?
    ensures st.seen < Run(false, Going(st), brand, clock, items).seen
    decreases |items|
  {
    assert items != [];
    if items[0].id.Get() in st.seen {
      assert !(IdsOf(items[1..]) <= st.seen) by {
        var d :| d in items && d.id.Get() !in st.seen;
        assert d != items[0];
        assert d in items[1..];
      }
      FirstNewInRun(st, brand, clock, items[1..]);
    }
  }

  /** A stored array of objects seeds the ledger with every id it holds, so a
      relisting of a stored listing is never appended again. */
  lemma StoredObjectsNotReadded(seen: set<Option<string>>, items: seq<JsonValue>, fetched: seq<seq<Listing>>, clock: nat -> real)
    requires |fetched| == |TARGET_KEYWORDS_V2|
    requires forall i :: 0 <= i < |items| ==> items[i].Obj?
    ensures var out := Cycle(seen, Array(items), fetched, clock).1;
      out.Completed? && forall i :: |items| <= i < |out.current| ==> out.current[i].listing.id.Get() !in KeyedIds(items)
  {
    SeedObjects(seen, items);
    CompletedCycle(seen, Array(items), fetched, clock);
    assert LoadExisting(seen, Array(items)).1.items == items;
  }
}
