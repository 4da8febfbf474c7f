/** The data side of the first dashboard, viewer.py: loading the newest
    partition, the option lists of the sidebar, the filter loop and the risk
    band of each card. What the page renders is left out; the lines of the
    newest file (or its absence) and the sidebar's selection are inputs. */
module Dashboard {
  import opened Text
  import opened Records
  import opened Seqs
  import opened StringOrder

  /** What `load_data` keeps of a file: the parsed non-blank lines, up to the
      first line that does not parse. The `try` wraps the whole loop, so that
      line ends the reading and everything after it is lost. */
  function ReadUntilError(lines: seq<FileLine>): (vals: seq<JsonValue>)
    ensures |vals| <= |lines|
  {
    if lines == [] then []
    else if IsBlank(lines[0].raw) then ReadUntilError(lines[1..])
    else if lines[0].parsed.Malformed? then []
    else [lines[0].parsed.v] + ReadUntilError(lines[1..])
  }

  /** `load_data()` (viewer.py:53-73): no file gives no data; otherwise the
      lines read before the first malformed one, newest first. */
  method LoadData(file: Option<seq<FileLine>>) returns (data: seq<JsonValue>)
    ensures file.None? ==> data == []
    ensures file.Some? ==> data == Reverse(ReadUntilError(file.value))
  {
    if file.None? {
      return [];
    }
    var read := ReadLines(file.value);
    data := Reverse(read);
  }

  /** The line loop of `load_data` (viewer.py:66-71); the first line that
      does not parse ends it. */
  method ReadLines(lines: seq<FileLine>) returns (read: seq<JsonValue>)
    ensures read == ReadUntilError(lines)
  {
    read := [];
    var i := 0;
    while i < |lines|
      invariant 0 <= i <= |lines|
      invariant read + ReadUntilError(lines[i..]) == ReadUntilError(lines)
    {
      ReadStep(lines, i);
      if Strip(lines[i].raw) != [] {
        if lines[i].parsed.Malformed? {
          return;
        }
        read := read + [lines[i].parsed.v];
      }
      i := i + 1;
    }
  }

  lemma ReadStep(lines: seq<FileLine>, i: nat)
    requires i < |lines|
    ensures ReadUntilError(lines[i..]) ==
      if Strip(lines[i].raw) == [] then ReadUntilError(lines[i + 1..])
      else if lines[i].parsed.Malformed? then []
      else [lines[i].parsed.v] + ReadUntilError(lines[i + 1..])
  {
    BlankIffAllSpace(lines[i].raw);
    assert lines[i..][1..] == lines[i + 1..];
  }

  /** A malformed line hides every line after it: reading the whole file gives
      what reading the file up to that line gives. */
  lemma {:induction false} NothingAfterMalformed(lines: seq<FileLine>, k: nat)
    requires k < |lines| && !IsBlank(lines[k].raw) && lines[k].parsed.Malformed?
    ensures ReadUntilError(lines) == ReadUntilError(lines[..k])
  {
    if k > 0 {
      var head, rest := lines[..k], lines[1..];
      assert head[0] == lines[0] && head[1..] == rest[..k - 1];
      NothingAfterMalformed(rest, k - 1);
      ReadFront(lines);
      ReadFront(head);
    }
  }

  /** The first line decides how the reading of a file starts. */
  lemma ReadFront(lines: seq<FileLine>)
    requires lines != []
    ensures ReadUntilError(lines) ==
      if IsBlank(lines[0].raw) then ReadUntilError(lines[1..])
      else if lines[0].parsed.Malformed? then []
      else [lines[0].parsed.v] + ReadUntilError(lines[1..])
  {
  }

  /** Without a malformed line every non-blank line is read, in file order. */
  lemma {:induction false} ReadsEveryLine(lines: seq<FileLine>)
    requires forall i :: 0 <= i < |lines| && !IsBlank(lines[i].raw) ==> lines[i].parsed.Value?
    ensures |ReadUntilError(lines)| == |lines| - CountWhere(lines, (l: FileLine) => IsBlank(l.raw))
  {
    if lines != [] {
      ReadsEveryLine(lines[1..]);
      CountWhereFront(lines, (l: FileLine) => IsBlank(l.raw));
    }
  }

  /** Every field access of the page calls `item.get`, which raises on a
      record that is not an object; `None` stands for that crash. */
  function AsListings(vals: seq<JsonValue>): (r: Option<seq<Listing>>)
    ensures r.Some? <==> forall i :: 0 <= i < |vals| ==> vals[i].Obj?
    ensures r.Some? ==> |r.value| == |vals| && forall i :: 0 <= i < |vals| ==> vals[i] == Obj(r.value[i])
  {
    if vals == [] then Some([])
    else if !vals[0].Obj? then None
    else
      var rest := AsListings(vals[1..]);
      if rest.None? then None else Some([vals[0].listing] + rest.value)
  }

  // The fields the page reads, each with the default its `.get` supplies.

  function BrandOf(item: Listing): string
  {
    if item.enrichment.Some? then item.enrichment.value.brandDetected else "Desconocida"
  }

  function RiskOf(item: Listing): int
  {
    if item.enrichment.Some? then item.enrichment.value.riskScore else 0
  }

  function BadWordsOf(item: Listing): seq<string>
  {
    if item.enrichment.Some? then item.enrichment.value.suspiciousKeywords else []
  }

  function CityOf(item: Listing): string
  {
    item.city.GetOr("Desconocida")
  }

  function UserOf(item: Listing): string
  {
    item.userId.GetOr("Anónimo")
  }

  /** `all_brands` (viewer.py:90): each detected brand once, in ascending order. */
  function BrandOptions(items: seq<Listing>): (r: seq<string>)
    ensures Ascending(r)
    ensures forall b :: b in r <==> exists i :: 0 <= i < |items| && BrandOf(items[i]) == b
  {
    var brands := seq(|items|, i requires 0 <= i < |items| => BrandOf(items[i]));
    assert forall b :: b in brands <==> exists i :: 0 <= i < |items| && BrandOf(items[i]) == b by {
      forall b | b in brands ensures exists i :: 0 <= i < |items| && BrandOf(items[i]) == b {
        var i :| 0 <= i < |brands| && brands[i] == b;
      }
      forall i | 0 <= i < |items| ensures BrandOf(items[i]) in brands {
        assert brands[i] == BrandOf(items[i]);
      }
    }
    SortedSet(brands)
  }

  /** `all_cities` (viewer.py:95): each city once, in ascending order. */
  function CityOptions(items: seq<Listing>): (r: seq<string>)
    ensures Ascending(r)
    ensures forall c :: c in r <==> exists i :: 0 <= i < |items| && CityOf(items[i]) == c
  {
    var cities := seq(|items|, i requires 0 <= i < |items| => CityOf(items[i]));
    assert forall c :: c in cities <==> exists i :: 0 <= i < |items| && CityOf(items[i]) == c by {
      forall c | c in cities ensures exists i :: 0 <= i < |items| && CityOf(items[i]) == c {
        var i :| 0 <= i < |cities| && cities[i] == c;
      }
      forall i | 0 <= i < |items| ensures CityOf(items[i]) in cities {
        assert cities[i] == CityOf(items[i]);
      }
    }
    SortedSet(cities)
  }

  /** The user of every item, in order: what the `Counter` counts. */
  function Users(items: seq<Listing>): (r: seq<string>)
    ensures |r| == |items| && forall i :: 0 <= i < |items| ==> r[i] == UserOf(items[i])
  {
    seq(|items|, i requires 0 <= i < |items| => UserOf(items[i]))
  }

  /** `user_counts[u]` */
  function Occurrences(users: seq<string>, u: string): nat
  {
    multiset(users)[u]
  }

  /** The keys of `Counter(users)`, in the order of their first occurrence. */
  function Dedupe(users: seq<string>): (r: seq<string>)
    ensures forall u :: multiset(r)[u] == if u in users then 1 else 0
  {
    if users == [] then []
    else
      var init := users[..|users| - 1];
      var last := users[|users| - 1];
      assert users == init + [last];
      var r := Dedupe(init);
      if last in r then r else r + [last]
  }

  /** Non-increasing in the number of items of each user. */
  predicate ByCount(r: seq<string>, users: seq<string>)
  {
    forall i, j :: 0 <= i < j < |r| ==> Occurrences(users, r[i]) >= Occurrences(users, r[j])
  }

  /** `u` put after every user with at least as many items, before the first
      with fewer: one step of a stable sort on decreasing count. */
  function InsertByCount(u: string, r: seq<string>, users: seq<string>): (res: seq<string>)
    requires ByCount(r, users)
    ensures ByCount(res, users)
    ensures multiset(res) == multiset(r) + multiset{u}
    decreases |r|
  {
    if r == [] then [u]
    else if Occurrences(users, r[0]) >= Occurrences(users, u) then
      var rest := InsertByCount(u, r[1..], users);
      HeadLeadsRest(r, u, rest, users);
      [r[0]] + rest
    else
      ConsByCount(u, r, users);
      [u] + r
  }

  /** After `r[0]`, the rest of `r` with `u` inserted holds no user with more items. */
  lemma HeadLeadsRest(r: seq<string>, u: string, rest: seq<string>, users: seq<string>)
    requires r != [] && ByCount(r, users) && Occurrences(users, r[0]) >= Occurrences(users, u)
    requires ByCount(rest, users) && multiset(rest) == multiset(r[1..]) + multiset{u}
    ensures ByCount([r[0]] + rest, users)
    ensures multiset([r[0]] + rest) == multiset(r) + multiset{u}
  {
    assert r == [r[0]] + r[1..];
    forall j | 0 <= j < |rest| ensures Occurrences(users, r[0]) >= Occurrences(users, rest[j]) {
      assert rest[j] in multiset(rest);
      if rest[j] != u {
        assert rest[j] in multiset(r[1..]);
        var k :| 0 <= k < |r[1..]| && r[1..][k] == rest[j];
        assert r[k + 1] == rest[j];
      }
    }
    ConsByCount(r[0], rest, users);
  }

  lemma ConsByCount(x: string, r: seq<string>, users: seq<string>)
    requires ByCount(r, users)
    requires forall j :: 0 <= j < |r| ==> Occurrences(users, x) >= Occurrences(users, r[j])
    ensures ByCount([x] + r, users)
  {
    var s := [x] + r;
    forall i, j | 0 <= i < j < |s| ensures Occurrences(users, s[i]) >= Occurrences(users, s[j]) {
      assert s[j] == r[j - 1];
      if i > 0 {
        assert s[i] == r[i - 1];
      }
    }
  }

  /** `sorted(user_counts.keys(), key=..., reverse=True)` */
  function SortByCount(keys: seq<string>, users: seq<string>): (r: seq<string>)
    ensures ByCount(r, users)
    ensures multiset(r) == multiset(keys)
  {
    if keys == [] then []
    else
      assert keys == keys[..|keys| - 1] + [keys[|keys| - 1]];
      InsertByCount(keys[|keys| - 1], SortByCount(keys[..|keys| - 1], users), users)
  }

  /** `sorted_users` (viewer.py:101-103): every user exactly once, those with
      more items first. */
  function SortedUsers(items: seq<Listing>): (r: seq<string>)
    ensures forall u :: multiset(r)[u] == if u in Users(items) then 1 else 0
    ensures ByCount(r, Users(items))
  {
    SortByCount(Dedupe(Users(items)), Users(items))
  }

  /** `f"{u} ({user_counts[u]} items)"` */
  function UserOption(u: string, n: nat): string
  {
    u + " (" + NatToString(n) + " items)"
  }

  /** `user_options` (viewer.py:106): "Todos", then one entry per user in the
      order of `SortedUsers`. */
  function UserOptions(items: seq<Listing>): (r: seq<string>)
    ensures |r| == |SortedUsers(items)| + 1 && r[0] == "Todos"
    ensures forall i :: 1 <= i < |r| ==>
      r[i] == UserOption(SortedUsers(items)[i - 1], Occurrences(Users(items), SortedUsers(items)[i - 1]))
  {
    TodosThenEntries(SortedUsers(items), Users(items));
    ["Todos"] + Entries(SortedUsers(items), Users(items))
  }

  function Entries(su: seq<string>, users: seq<string>): (r: seq<string>)
    ensures |r| == |su| && forall i :: 0 <= i < |su| ==> r[i] == UserOption(su[i], Occurrences(users, su[i]))
  {
    seq(|su|, i requires 0 <= i < |su| => UserOption(su[i], Occurrences(users, su[i])))
  }

  lemma TodosThenEntries(su: seq<string>, users: seq<string>)
    ensures |["Todos"] + Entries(su, users)| == |su| + 1
    ensures forall i :: 1 <= i < |su| + 1 ==>
      (["Todos"] + Entries(su, users))[i] == UserOption(su[i - 1], Occurrences(users, su[i - 1]))
  {
    var e := Entries(su, users);
    forall i | 1 <= i < |su| + 1
      ensures (["Todos"] + e)[i] == UserOption(su[i - 1], Occurrences(users, su[i - 1]))
    {
      assert (["Todos"] + e)[i] == e[i - 1];
    }
  }

  /** `selected_user_id` (viewer.py:111-113). */
  function SelectedUser(display: string): string
  {
    if display == "Todos" then "Todos" else SplitHead(display, " (")
  }

  /** Choosing a user's entry selects that user, as long as the id does not
      itself hold " (". */
  lemma SelectedUserRoundTrip(u: string, n: nat)
    requires !Contains(u, " (")
    ensures SelectedUser(UserOption(u, n)) == u
  {
    var rest := NatToString(n) + " items)";
    assert UserOption(u, n) == u + " (" + rest;
    assert |UserOption(u, n)| > 5;
    NoSeparatorAcrossEnd(u);
    SplitHeadOfJoin(u, " (", rest);
  }

  lemma NoSeparatorAcrossEnd(u: string)
    requires !Contains(u, " (")
    ensures !Contains(u + " ("[..1], " (")
  {
    var t := u + " ("[..1];
    if Contains(t, " (") {
      var i :| 0 <= i <= |t| && OccursAt(t, " (", i);
      assert t[i + 1] == '(';
      assert i + 2 <= |u|;
      assert u[i..i + 2] == t[i..i + 2];
      assert OccursAt(u, " (", i);
    }
  }

  /** Every entry after "Todos" selects the user it lists. */
  lemma UserOptionsSelect(items: seq<Listing>, i: nat)
    requires 1 <= i < |UserOptions(items)| && !Contains(SortedUsers(items)[i - 1], " (")
    ensures SelectedUser(UserOptions(items)[i]) == SortedUsers(items)[i - 1]
  {
    var su := SortedUsers(items);
    SelectedUserRoundTrip(su[i - 1], Occurrences(Users(items), su[i - 1]));
  }

  /** The sidebar's choices. */
  datatype Selection = Selection(
    minPrice: int,
    onlyRisky: bool,
    brands: seq<string>,
    cities: seq<string>,
    user: string,
    words: seq<string>)

  /** An item the filter keeps (viewer.py:137-157): at least the minimum price;
      above 30 when only risky items are asked for; a selected brand; a selected
      city when cities are chosen; the chosen user unless "Todos"; one of the
      chosen words among its suspicious keywords when words are chosen. */
  predicate Shown(sel: Selection, item: Listing)
  {
    && item.amount.Num? && item.amount.value >= sel.minPrice as real
    && !(sel.onlyRisky && RiskOf(item) <= 30)
    && BrandOf(item) in sel.brands
    && (sel.cities == [] || CityOf(item) in sel.cities)
    && (sel.user == "Todos" || UserOf(item) == sel.user)
    && (sel.words == [] || exists w :: w in sel.words && w in BadWordsOf(item))
  }

  function ShownBy(sel: Selection): Listing -> bool
  {
    item => Shown(sel, item)
  }

  /** The filter loop (viewer.py:127-159). `price < min_price` raises on an
      amount that is not a number, which stops the page: `None`. Otherwise the
      kept items, in the order of `items`. */
  method FilterItems(items: seq<Listing>, sel: Selection) returns (filtered: Option<seq<Listing>>)
    ensures filtered.None? <==> exists i :: 0 <= i < |items| && items[i].amount.NonNumeric?
    ensures filtered.Some? ==> filtered.value == Filter(items, ShownBy(sel))
  {
    var kept: seq<Listing> := [];
    for i := 0 to |items|
      invariant kept == Filter(items[..i], ShownBy(sel))
      invariant forall j :: 0 <= j < i ==> items[j].amount.Num?
    {
      FilterStep(items, i, ShownBy(sel));
      var item := items[i];
      if item.amount.NonNumeric? {
        return None;
      }
      var price := item.amount.value;
      var risk := RiskOf(item);
      var brand := BrandOf(item);
      var itemBadWords := BadWordsOf(item);
      var city := CityOf(item);
      var user := UserOf(item);
      if price < sel.minPrice as real {
        continue;
      }
      if sel.onlyRisky && risk <= 30 {
        continue;
      }
      if brand !in sel.brands {
        continue;
      }
      if sel.cities != [] && city !in sel.cities {
        continue;
      }
      if sel.user != "Todos" && user != sel.user {
        continue;
      }
      if sel.words != [] && !(exists w :: w in sel.words && w in itemBadWords) {
        continue;
      }
      kept := kept + [item];
    }
    assert items[..|items|] == items;
    filtered := Some(kept);
  }

  /** The filtered list keeps the order of `items`, and holds an item iff
      `items` does and it passes every filter. */
  lemma FilteredItems(items: seq<Listing>, sel: Selection)
    ensures IsSubsequence(Filter(items, ShownBy(sel)), items)
    ensures forall x :: x in Filter(items, ShownBy(sel)) <==> x in items && Shown(sel, x)
  {
    var r := Filter(items, ShownBy(sel));
    forall x | x in r ensures x in items && Shown(sel, x) {
      var i :| 0 <= i < |r| && r[i] == x;
    }
    forall x | x in items && Shown(sel, x) ensures x in r {
      var i :| 0 <= i < |items| && items[i] == x;
    }
  }

  /** The colour of a card (viewer.py:206-211). */
  datatype Band = Low | Medium | High

  function RiskBand(score: int): Band
  {
    if score > 50 then High else if score > 30 then Medium else Low
  }

  /** A higher score never gets a lower band. */
  lemma RiskBandMonotone(a: int, b: int)
    requires a <= b
    ensures RiskBand(a) == High ==> RiskBand(b) == High
    ensures RiskBand(a) == Medium ==> RiskBand(b) != Low
  {
  }

  /** "Ver sospechosos (Riesgo > 30)" keeps exactly the cards that are not
      green: with it on, every shown item is in the medium or high band. */
  lemma RiskyFilterMatchesBands(sel: Selection, item: Listing)
    requires sel.onlyRisky
    ensures Shown(sel, item) ==> RiskBand(RiskOf(item)) != Low
    ensures RiskBand(RiskOf(item)) == Low ==> !Shown(sel, item)
  {
  }
}
