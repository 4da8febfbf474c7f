/** The data side of the live monitor, poller/viewer.py: loading the newest
    daily partition line by line, the filter loop with its shown-item count,
    and the badge, description preview and link of each card. What the page
    renders is left out; the newest file (or its absence) and the sidebar's
    selection are inputs. */
module LiveDashboard {
  import opened Text
  import opened Records
  import opened Seqs
  import Dashboard

  /** What `load_latest_data` keeps of a file: every non-blank line that
      parses, in file order; a malformed line is skipped on its own. */
  function ReadTolerant(lines: seq<FileLine>): (vals: seq<JsonValue>)
    ensures |vals| <= |lines|
  {
    if lines == [] then []
    else if IsBlank(lines[0].raw) || lines[0].parsed.Malformed? then ReadTolerant(lines[1..])
    else [lines[0].parsed.v] + ReadTolerant(lines[1..])
  }

  lemma ReadStep(lines: seq<FileLine>, i: nat)
    requires i < |lines|
    ensures ReadTolerant(lines[i..]) ==
      if Strip(lines[i].raw) == [] || lines[i].parsed.Malformed? then ReadTolerant(lines[i + 1..])
      else [lines[i].parsed.v] + ReadTolerant(lines[i + 1..])
  {
    assert lines[i..][1..] == lines[i + 1..];
  }

  /** The newest `wallapop_watches_*.json` of the log directory. */
  datatype LogFile = LogFile(path: string, lines: seq<FileLine>)

  /** `load_latest_data()` (poller/viewer.py:75-104): no directory or no file
      gives no data and no path; otherwise the readable lines, newest first,
      and the file's path. */
  method LoadLatestData(latest: Option<LogFile>) returns (data: seq<JsonValue>, current: Option<string>)
    ensures latest.None? ==> data == [] && current == None
    ensures latest.Some? ==> data == Reverse(ReadTolerant(latest.value.lines)) && current == Some(latest.value.path)
  {
    if latest.None? {
      return [], None;
    }
    var read := ReadLines(latest.value.lines);
    data := Reverse(read);
    current := Some(latest.value.path);
  }

  /** The line loop of `load_latest_data` (poller/viewer.py:94-99). */
  method ReadLines(lines: seq<FileLine>) returns (read: seq<JsonValue>)
    ensures read == ReadTolerant(lines)
  {
    read := [];
    var i := 0;
    while i < |lines|
      invariant 0 <= i <= |lines|
      invariant read + ReadTolerant(lines[i..]) == ReadTolerant(lines)
    {
      ReadStep(lines, i);
      if Strip(lines[i].raw) != [] {
        if lines[i].parsed.Value? {
          read := read + [lines[i].parsed.v];
        }
      }
      i := i + 1;
    }
  }

  /** A line that `load_latest_data` reads. */
  predicate Readable(line: FileLine)
  {
    !IsBlank(line.raw) && line.parsed.Value?
  }

  /** One value per readable line, whatever lies around it. */
  lemma {:induction false} ReadsEveryReadableLine(lines: seq<FileLine>)
    ensures |ReadTolerant(lines)| == CountWhere(lines, Readable)
  {
    if lines != [] {
      ReadsEveryReadableLine(lines[1..]);
      CountWhereFront(lines, Readable);
    }
  }

  /** A line neither dashboard stumbles on: blank, or parsing. */
  predicate Decodes(line: FileLine)
  {
    IsBlank(line.raw) || line.parsed.Value?
  }

  /** The first dashboard's reader stops at the first malformed line, this one
      skips it: what the first reads is always a prefix of what this one reads. */
  lemma {:induction false} UntilErrorIsPrefix(lines: seq<FileLine>)
    ensures Dashboard.ReadUntilError(lines) <= ReadTolerant(lines)
  {
    if lines != [] {
      var rest := lines[1..];
      UntilErrorIsPrefix(rest);
      var a, b := Dashboard.ReadUntilError(rest), ReadTolerant(rest);
      if IsBlank(lines[0].raw) {
        assert Dashboard.ReadUntilError(lines) == a && ReadTolerant(lines) == b;
      } else if lines[0].parsed.Value? {
        var v := lines[0].parsed.v;
        assert Dashboard.ReadUntilError(lines) == [v] + a && ReadTolerant(lines) == [v] + b;
      }
    }
  }

  /** On a file without malformed lines the two readers agree. */
  lemma {:induction false} ReadersAgree(lines: seq<FileLine>)
    requires forall i :: 0 <= i < |lines| ==> Decodes(lines[i])
    ensures Dashboard.ReadUntilError(lines) == ReadTolerant(lines)
  {
    if lines != [] {
      var rest := lines[1..];
      assert forall i :: 0 <= i < |rest| ==> rest[i] == lines[i + 1];
      ReadersAgree(rest);
      assert Decodes(lines[0]);
    }
  }

  /** The sidebar's choices. */
  datatype Selection = Selection(
    minPrice: int,
    maxPrice: int,
    riskThreshold: int,
    brands: seq<string>,
    keywords: seq<string>)

  /** `enrichment.get("brand_detected", "N/A")`: the filter's default brand,
      which differs from the "Desconocida" of the brand options. */
  function BrandOf(item: Listing): string
  {
    if item.enrichment.Some? then item.enrichment.value.brandDetected else "N/A"
  }

  function TitleOf(item: Listing): string
  {
    item.title.GetOr("Sin título")
  }

  /** One of the chosen keywords is among the item's suspicious keywords. */
  predicate KeywordHit(sel: Selection, item: Listing)
  {
    exists k :: k in sel.keywords && k in Dashboard.BadWordsOf(item)
  }

  /** One of the chosen keywords, lower-cased, occurs in the lower-cased title
      and description. */
  predicate TextHit(sel: Selection, title: string, description: string)
  {
    exists k :: k in sel.keywords && Contains(Lower(title + " " + description), Lower(k))
  }

  predicate PriceInRange(sel: Selection, price: real)
  {
    sel.minPrice as real <= price && (sel.maxPrice <= 0 || price <= sel.maxPrice as real)
  }

  /** Price, risk and brand filters (poller/viewer.py:181-186) all pass. */
  predicate PassesBasics(sel: Selection, item: Listing)
  {
    && item.amount.Num? && PriceInRange(sel, item.amount.value)
    && Dashboard.RiskOf(item) >= sel.riskThreshold
    && (sel.brands == [] || BrandOf(item) in sel.brands)
  }

  /** An item the loop shows: the basic filters pass and, when keywords are
      chosen, one of them is among its keywords or occurs in its text. */
  predicate Passes(sel: Selection, item: Listing)
  {
    && PassesBasics(sel, item)
    && (sel.keywords == [] || KeywordHit(sel, item)
        || (item.description.Plain? && TextHit(sel, TitleOf(item), item.description.text)))
  }

  function PassesBy(sel: Selection): Listing -> bool
  {
    item => Passes(sel, item)
  }

  /** An item that stops the page: an amount that does not compare with a
      number, or a description object reached by the text search
      (`title + " " + description` raises on it). */
  predicate Crashes(sel: Selection, item: Listing)
  {
    || item.amount.NonNumeric?
    || (PassesBasics(sel, item) && sel.keywords != [] && !KeywordHit(sel, item) && item.description.Structured?)
  }

  datatype Verdict = Show | Skip | Crash

  /** The guards of one iteration (poller/viewer.py:181-194), in their order. */
  function Judge(sel: Selection, item: Listing): (v: Verdict)
    ensures v == Show <==> Passes(sel, item)
    ensures v == Crash <==> Crashes(sel, item)
  {
    if item.amount.NonNumeric? then Crash
    else
      var price := item.amount.value;
      if price < sel.minPrice as real || (sel.maxPrice > 0 && price > sel.maxPrice as real) then Skip
      else if Dashboard.RiskOf(item) < sel.riskThreshold then Skip
      else if sel.brands != [] && BrandOf(item) !in sel.brands then Skip
      else if sel.keywords != [] then
        if KeywordHit(sel, item) then Show
        else if item.description.Structured? then Crash
        else if TextHit(sel, TitleOf(item), item.description.text) then Show
        else Skip
      else Show
  }

  /** The items shown before the loop ends, and whether it ended by a crash. */
  function Run(items: seq<Listing>, sel: Selection): (seq<Listing>, bool)
  {
    if items == [] then ([], false)
    else
      var before := Run(items[..|items| - 1], sel);
      var last := items[|items| - 1];
      if before.1 then before
      else
        match Judge(sel, last)
        case Crash => (before.0, true)
        case Show => (before.0 + [last], false)
        case Skip => before
  }

  lemma RunStep(items: seq<Listing>, i: nat, sel: Selection)
    requires i < |items| && !Run(items[..i], sel).1
    ensures Run(items[..i + 1], sel) ==
      match Judge(sel, items[i])
      case Crash => (Run(items[..i], sel).0, true)
      case Show => (Run(items[..i], sel).0 + [items[i]], false)
      case Skip => Run(items[..i], sel)
  {
    assert items[..i + 1][..i] == items[..i];
  }

  /** Once the loop has crashed, later items change nothing. */
  lemma {:induction false} CrashSticks(items: seq<Listing>, k: nat, sel: Selection)
    requires k <= |items| && Run(items[..k], sel).1
    ensures Run(items, sel) == Run(items[..k], sel)
    decreases |items| - k
  {
    if k == |items| {
      assert items[..k] == items;
    } else {
      assert items[..k + 1][..k] == items[..k];
      CrashSticks(items, k + 1, sel);
    }
  }

  /** The filter loop (poller/viewer.py:154-196): the cards rendered, in
      order, `count_shown`, and whether an item stopped the page. */
  method FilterItems(items: seq<Listing>, sel: Selection) returns (shown: seq<Listing>, countShown: nat, crashed: bool)
    ensures (shown, crashed) == Run(items, sel)
    ensures countShown == |shown|
  {
    shown, countShown, crashed := [], 0, false;
    var i := 0;
    while i < |items|
      invariant 0 <= i <= |items|
      invariant (shown, false) == Run(items[..i], sel) && countShown == |shown|
    {
      RunStep(items, i, sel);
      var item := items[i];
      var verdict := Judge(sel, item);
      if verdict == Crash {
        crashed := true;
        CrashSticks(items, i + 1, sel);
        return;
      }
      if verdict == Show {
        countShown := countShown + 1;
        shown := shown + [item];
      }
      i := i + 1;
    }
    assert items[..|items|] == items;
  }

  /** The loop stops the page iff some item crashes it; otherwise it shows
      exactly the passing items, in order, and `count_shown` counts them. */
  lemma {:induction false} RunOutcome(items: seq<Listing>, sel: Selection)
    ensures Run(items, sel).1 <==> exists i :: 0 <= i < |items| && Crashes(sel, items[i])
    ensures !Run(items, sel).1 ==> Run(items, sel).0 == Filter(items, PassesBy(sel))
    ensures !Run(items, sel).1 ==> |Run(items, sel).0| == CountWhere(items, PassesBy(sel))
  {
    RunCrashes(items, sel);
    RunShows(items, sel);
  }

  lemma {:induction false} RunCrashes(items: seq<Listing>, sel: Selection)
    ensures Run(items, sel).1 <==> exists i :: 0 <= i < |items| && Crashes(sel, items[i])
  {
    if items != [] {
      var init := items[..|items| - 1];
      RunCrashes(init, sel);
      if Run(init, sel).1 {
        var i :| 0 <= i < |init| && Crashes(sel, init[i]);
        assert items[i] == init[i];
      } else if !Crashes(sel, items[|items| - 1]) {
        forall i | 0 <= i < |items| ensures !Crashes(sel, items[i]) {
          if i < |init| {
            assert items[i] == init[i];
          }
        }
      }
    }
  }

  lemma {:induction false} RunShows(items: seq<Listing>, sel: Selection)
    ensures !Run(items, sel).1 ==> Run(items, sel).0 == Filter(items, PassesBy(sel))
  {
    if items != [] {
      var init := items[..|items| - 1];
      RunShows(init, sel);
    }
  }

  /** The page over the records `LoadLatestData` read. Building the brand
      options (poller/viewer.py:138-139) calls `.get` on every record, so a
      record that is not an object stops the page before the loop (`None`);
      otherwise the loop runs over the listings. */
  function Page(data: seq<JsonValue>, sel: Selection): Option<(seq<Listing>, bool)>
  {
    match Dashboard.AsListings(data)
    case None => None
    case Some(items) => Some(Run(items, sel))
  }

  /** The page stops before the loop iff some record is not an object; then
      the loop stops it iff some record crashes the filters, and otherwise
      shows exactly the passing records, in order. */
  lemma PageOutcome(data: seq<JsonValue>, sel: Selection)
    ensures Page(data, sel).None? <==> exists i :: 0 <= i < |data| && !data[i].Obj?
    ensures Page(data, sel).Some? ==>
      (Page(data, sel).value.1 <==> exists i :: 0 <= i < |data| && data[i].Obj? && Crashes(sel, data[i].listing))
    ensures Page(data, sel).Some? && !Page(data, sel).value.1 ==>
      |Page(data, sel).value.0| == CountWhere(Dashboard.AsListings(data).value, PassesBy(sel))
      && forall d :: d in Page(data, sel).value.0 ==> Obj(d) in data && Passes(sel, d)
  {
    var r := Dashboard.AsListings(data);
    if r.Some? {
      var items := r.value;
      RunOutcome(items, sel);
      if Run(items, sel).1 {
        var i :| 0 <= i < |items| && Crashes(sel, items[i]);
        assert data[i] == Obj(items[i]);
      }
      if !Run(items, sel).1 {
        forall d | d in Run(items, sel).0 ensures Obj(d) in data && Passes(sel, d) {
          var shown := Run(items, sel).0;
          var j :| 0 <= j < |shown| && shown[j] == d;
          assert d in items && PassesBy(sel)(d);
          var i :| 0 <= i < |items| && items[i] == d;
          assert data[i] == Obj(d);
        }
      }
    }
  }

  /** An item without enrichment is listed under "Desconocida" among the brand
      options, but the filter reads its brand as "N/A": whenever brands are
      chosen and "N/A" is not among them, such an item is never shown. */
  lemma UnenrichedItemNeverMatchesABrand(items: seq<Listing>, i: nat, sel: Selection)
    requires i < |items| && items[i].enrichment.None?
    requires sel.brands != [] && "N/A" !in sel.brands
    ensures "Desconocida" in Dashboard.BrandOptions(items)
    ensures !Passes(sel, items[i])
  {
  }

  /** The risk badge of a card (poller/viewer.py:239-247). */
  datatype Badge = RiskHigh | RiskMed | RiskLow
  {
    function Label(): string
    {
      match this
      case RiskHigh => "ALTO RIESGO"
      case RiskMed => "SOSPECHOSO"
      case RiskLow => "OK"
    }

    function CssClass(): string
    {
      match this
      case RiskHigh => "risk-high"
      case RiskMed => "risk-med"
      case RiskLow => "risk-low"
    }
  }

  function BadgeOf(score: int): Badge
  {
    if score >= 50 then RiskHigh else if score >= 20 then RiskMed else RiskLow
  }

  /** The monitor's badge is never milder than the first dashboard's band: a
      red band gets "ALTO RIESGO", an orange one at least "SOSPECHOSO", and
      "OK" only ever goes with a green band. */
  lemma BadgeAtLeastBand(score: int)
    ensures Dashboard.RiskBand(score) == Dashboard.High ==> BadgeOf(score) == RiskHigh
    ensures Dashboard.RiskBand(score) == Dashboard.Medium ==> BadgeOf(score) != RiskLow
    ensures BadgeOf(score) == RiskLow ==> Dashboard.RiskBand(score) == Dashboard.Low
  {
  }

  /** A higher score never gets a milder badge. */
  lemma BadgeMonotone(a: int, b: int)
    requires a <= b
    ensures BadgeOf(a) == RiskHigh ==> BadgeOf(b) == RiskHigh
    ensures BadgeOf(a) == RiskMed ==> BadgeOf(b) != RiskLow
  {
  }

  /** `desc_preview` (poller/viewer.py:223): the description itself when it
      has at most 200 characters, else its first 200 followed by "...". */
  function Preview(description: string): (r: string)
    ensures |r| <= 203
    ensures |description| <= 200 ==> r == description
    ensures |description| > 200 ==> |r| == 203 && r[..200] == description[..200] && r[200..] == "..."
  {
    if |description| > 200 then description[..200] + "..." else description
  }

  const ITEM_URL_PREFIX: string := "https://es.wallapop.com/item/"

  /** `wallapop_url` (poller/viewer.py:178). */
  function ItemUrl(slug: string): (url: string)
    ensures slug == [] ==> url == "#"
    ensures slug != [] ==> |url| == |ITEM_URL_PREFIX| + |slug| && url[..|ITEM_URL_PREFIX|] == ITEM_URL_PREFIX
                           && url[|ITEM_URL_PREFIX|..] == slug
  {
    if slug != [] then ITEM_URL_PREFIX + slug else "#"
  }

  /** Distinct slugs link to distinct pages, and no listing links to "#". */
  lemma ItemUrlInjective(a: string, b: string)
    requires ItemUrl(a) == ItemUrl(b)
    ensures a == b
  {
    if a != [] && b != [] {
      assert a == ItemUrl(a)[|ITEM_URL_PREFIX|..];
    }
  }
}
