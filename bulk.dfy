/** The two bulk loaders that push a day's JSON Lines partition to the search
    index: ingestion/bulk_ingest.py keys every document by its listing id (so
    loading a file again overwrites), bulk_ingest.py forwards every non-blank
    line under a header without a key. Both build the newline-delimited `_bulk`
    body as alternating action-header and document lines, send nothing when no
    document was collected, and classify the server's reply.

    The partition's lines (or its absence) and the server's reply are inputs;
    the body that would be sent and the reported outcome are the results. */
module Bulk {
  import opened Text
  import opened Records
  import opened Seqs
  import opened JsonText

  /** The start of a keyed header, up to the JSON text of the id; the index
      alias of ingestion/bulk_ingest.py is "lab2.wallapop". */
  const KEYED_PREFIX: string := "{\"index\": " + "{\"_index\": " + "\"lab2.wallapop\", " + "\"_id\": "

  /** `json.dumps({"index": {"_index": INDEX_ALIAS, "_id": item_id}})` */
  function KeyedHeader(id: Option<string>): (h: string)
    ensures h == KEYED_PREFIX + NullableString(id) + "}}"
    ensures Printable(h)
  {
    PrefixPrintable();
    KEYED_PREFIX + NullableString(id) + "}}"
  }

  lemma PrefixPrintable()
    ensures Printable(KEYED_PREFIX)
  {
    assert Printable("{\"index\": ") && Printable("{\"_index\": ");
    assert Printable("\"lab2.wallapop\", ") && Printable("\"_id\": ");
  }

  /** Headers of distinct ids differ and headers of equal ids coincide, so a
      document is always sent under the key of its listing. */
  lemma KeyedHeaderInjective(a: Option<string>, b: Option<string>)
    requires KeyedHeader(a) == KeyedHeader(b)
    ensures a == b
  {
    var x, y := NullableString(a), NullableString(b);
    var n := |KEYED_PREFIX|;
    assert x == KeyedHeader(a)[n..|KeyedHeader(a)| - 2];
    assert y == KeyedHeader(b)[n..|KeyedHeader(b)| - 2];
    if a.Some? && b.Some? {
      QuoteInjective(a.value, b.value);
    }
  }

  /** `json.dumps({"index": {"_index": INDEX_ALIAS}})` with the alias of
      bulk_ingest.py, "lab1.wallapop": the same for every document. */
  const PLAIN_HEADER: string := "{\"index\": " + "{\"_index\": " + "\"lab1.wallapop\"}}"

  lemma PlainHeaderPrintable()
    ensures Printable(PLAIN_HEADER)
  {
    assert Printable("{\"index\": ") && Printable("{\"_index\": ") && Printable("\"lab1.wallapop\"}}");
  }

  /** A line the keyed loader indexes: not blank, and parsing to an object
      (`json.loads` raises on a malformed line and `.get` on any other value;
      both are caught and the line skipped). */
  predicate Indexable(line: FileLine)
  {
    !IsBlank(line.raw) && line.parsed.Value? && line.parsed.v.Obj?
  }

  /** A line the plain loader forwards: any line that is not blank. */
  predicate NonBlank(line: FileLine)
  {
    !IsBlank(line.raw)
  }

  /** The `doc.get("id")` of a parsed line, used for indexable lines only. */
  function LineId(line: FileLine): Option<string>
  {
    if line.parsed.Value? && line.parsed.v.Obj? then line.parsed.v.listing.id.Get() else None
  }

  function KeyedHeaderOf(line: FileLine): string
  {
    KeyedHeader(LineId(line))
  }

  function PlainHeaderOf(line: FileLine): string
  {
    PLAIN_HEADER
  }

  /** `bulk_data` after the lines: for each kept line, its header and its
      stripped text. */
  function Pairs(lines: seq<FileLine>, keep: FileLine -> bool, header: FileLine -> string): seq<string>
  {
    if lines == [] then []
    else
      var last := lines[|lines| - 1];
      Pairs(lines[..|lines| - 1], keep, header) + (if keep(last) then [header(last), Strip(last.raw)] else [])
  }

  /** Each element's header followed by its body, in order. */
  function Interleave<T>(kept: seq<T>, header: T -> string, body: T -> string): seq<string>
  {
    if kept == [] then []
    else
      var last := kept[|kept| - 1];
      Interleave(kept[..|kept| - 1], header, body) + [header(last), body(last)]
  }

  /** The document line sent for a line of the partition. */
  function Stripped(line: FileLine): string
  {
    Strip(line.raw)
  }

  /** `bulk_data` holds twice as many entries as lines were kept; even
      positions are headers and odd positions the kept lines, stripped, in
      file order. */
  lemma PairsShape(lines: seq<FileLine>, keep: FileLine -> bool, header: FileLine -> string)
    ensures var kept := Filter(lines, keep);
      var r := Pairs(lines, keep, header);
      && |r| == 2 * |kept|
      && forall k :: 0 <= k < |kept| ==> r[2 * k] == header(kept[k]) && r[2 * k + 1] == Strip(kept[k].raw)
  {
    var kept := Filter(lines, keep);
    PairsInterleave(lines, keep, header);
    InterleaveLength(kept, header, Stripped);
    forall k | 0 <= k < |kept|
      ensures Interleave(kept, header, Stripped)[2 * k] == header(kept[k])
      ensures Interleave(kept, header, Stripped)[2 * k + 1] == Strip(kept[k].raw)
    {
      InterleaveAt(kept, header, Stripped, k);
    }
  }

  lemma {:induction false} PairsInterleave(lines: seq<FileLine>, keep: FileLine -> bool, header: FileLine -> string)
    ensures Pairs(lines, keep, header) == Interleave(Filter(lines, keep), header, Stripped)
  {
    if lines != [] {
      var init, last := lines[..|lines| - 1], lines[|lines| - 1];
      PairsInterleave(init, keep, header);
      var f0 := Filter(init, keep);
      if keep(last) {
        assert Filter(lines, keep) == f0 + [last];
        assert (f0 + [last])[..|f0|] == f0;
      } else {
        assert Filter(lines, keep) == f0;
      }
    }
  }

  lemma {:induction false} InterleaveLength<T>(kept: seq<T>, header: T -> string, body: T -> string)
    ensures |Interleave(kept, header, body)| == 2 * |kept|
  {
    if kept != [] {
      InterleaveLength(kept[..|kept| - 1], header, body);
    }
  }

  /** The `k`-th element's header sits at position `2 * k`, its body right after. */
  lemma {:induction false} InterleaveAt<T>(kept: seq<T>, header: T -> string, body: T -> string, k: nat)
    requires k < |kept|
    ensures |Interleave(kept, header, body)| == 2 * |kept|
    ensures Interleave(kept, header, body)[2 * k] == header(kept[k])
    ensures Interleave(kept, header, body)[2 * k + 1] == body(kept[k])
    decreases |kept|
  {
    var init, last := kept[..|kept| - 1], kept[|kept| - 1];
    InterleaveLength(init, header, body);
    assert Interleave(kept, header, body) == Interleave(init, header, body) + [header(last), body(last)];
    if k < |init| {
      InterleaveAt(init, header, body, k);
      assert kept[k] == init[k];
    }
  }

  lemma PairsStep(lines: seq<FileLine>, i: nat, keep: FileLine -> bool, header: FileLine -> string)
    requires i < |lines|
    ensures Pairs(lines[..i + 1], keep, header)
            == Pairs(lines[..i], keep, header) + (if keep(lines[i]) then [header(lines[i]), Strip(lines[i].raw)] else [])
    ensures CountWhere(lines[..i + 1], keep) == CountWhere(lines[..i], keep) + (if keep(lines[i]) then 1 else 0)
  {
    assert lines[..i + 1][..i] == lines[..i];
  }

  function KeyedBulk(lines: seq<FileLine>): seq<string>
  {
    Pairs(lines, Indexable, KeyedHeaderOf)
  }

  function PlainBulk(lines: seq<FileLine>): seq<string>
  {
    Pairs(lines, NonBlank, PlainHeaderOf)
  }

  lemma KeyedStep(lines: seq<FileLine>, i: nat)
    requires i < |lines|
    ensures var line, doc := Strip(lines[i].raw), lines[i].parsed;
      if line != [] && doc.Value? && doc.v.Obj? then
        && KeyedBulk(lines[..i + 1]) == KeyedBulk(lines[..i]) + [KeyedHeader(doc.v.listing.id.Get()), line]
        && CountWhere(lines[..i + 1], Indexable) == CountWhere(lines[..i], Indexable) + 1
      else
        && KeyedBulk(lines[..i + 1]) == KeyedBulk(lines[..i])
        && CountWhere(lines[..i + 1], Indexable) == CountWhere(lines[..i], Indexable)
  {
    PairsStep(lines, i, Indexable, KeyedHeaderOf);
  }

  lemma PlainStep(lines: seq<FileLine>, i: nat)
    requires i < |lines|
    ensures var line := Strip(lines[i].raw);
      if line != [] then
        && PlainBulk(lines[..i + 1]) == PlainBulk(lines[..i]) + [PLAIN_HEADER, line]
        && CountWhere(lines[..i + 1], NonBlank) == CountWhere(lines[..i], NonBlank) + 1
      else
        && PlainBulk(lines[..i + 1]) == PlainBulk(lines[..i])
        && CountWhere(lines[..i + 1], NonBlank) == CountWhere(lines[..i], NonBlank)
  {
    PairsStep(lines, i, NonBlank, PlainHeaderOf);
  }

  /** The keyed loader: every object line yields its id's header and its
      stripped text; blank, malformed and non-object lines yield nothing. */
  lemma KeyedShape(lines: seq<FileLine>)
    ensures var kept := Filter(lines, Indexable);
      var r := KeyedBulk(lines);
      && |r| == 2 * CountWhere(lines, Indexable)
      && (forall k :: 0 <= k < |kept| ==> r[2 * k] == KeyedHeader(LineId(kept[k])) && r[2 * k + 1] == Strip(kept[k].raw))
      && IsSubsequence(kept, lines)
      && (forall i :: 0 <= i < |lines| && Indexable(lines[i]) ==> lines[i] in kept)
      && (forall k :: 0 <= k < |kept| ==> Indexable(kept[k]))
  {
    PairsShape(lines, Indexable, KeyedHeaderOf);
  }

  /** The plain loader: every non-blank line, parsable or not, is forwarded
      under the same key-less header. */
  lemma PlainShape(lines: seq<FileLine>)
    ensures var kept := Filter(lines, NonBlank);
      var r := PlainBulk(lines);
      && |r| == 2 * CountWhere(lines, NonBlank)
      && (forall k :: 0 <= k < |kept| ==> r[2 * k] == PLAIN_HEADER && r[2 * k + 1] == Strip(kept[k].raw))
      && IsSubsequence(kept, lines)
      && (forall i :: 0 <= i < |lines| && NonBlank(lines[i]) ==> lines[i] in kept)
  {
    PairsShape(lines, NonBlank, PlainHeaderOf);
  }

  /** `"\n".join(parts)` */
  function Join(parts: seq<string>): string
  {
    if parts == [] then ""
    else if |parts| == 1 then parts[0]
    else parts[0] + "\n" + Join(parts[1..])
  }

  /** `"\n".join(bulk_data) + "\n"` */
  function Payload(parts: seq<string>): (body: string)
    ensures |body| >= 1 && body[|body| - 1] == '\n'
  {
    Join(parts) + "\n"
  }

  /** Each part followed by a newline. */
  function Terminated(parts: seq<string>): string
  {
    if parts == [] then "" else parts[0] + "\n" + Terminated(parts[1..])
  }

  lemma {:induction false} PayloadTerminated(parts: seq<string>)
    requires parts != []
    ensures Payload(parts) == Terminated(parts)
  {
    if |parts| > 1 {
      PayloadTerminated(parts[1..]);
    }
  }

  /** The lines of a newline-delimited text: the pieces between newlines, a
      final piece without newline included when it is not empty. */
  function SplitLines(s: string): seq<string>
  {
    SplitFrom(s, "")
  }

  function SplitFrom(s: string, cur: string): seq<string>
    decreases |s|
  {
    if s == [] then (if cur == [] then [] else [cur])
    else if s[0] == '\n' then [cur] + SplitFrom(s[1..], "")
    else SplitFrom(s[1..], cur + [s[0]])
  }

  lemma {:induction false} SplitFromLine(x: string, rest: string, cur: string)
    requires NoLineBreak(x)
    ensures SplitFrom(x + "\n" + rest, cur) == [cur + x] + SplitFrom(rest, "")
    decreases |x|
  {
    if x == [] {
      assert (x + "\n" + rest)[1..] == rest;
      assert cur + x == cur;
    } else {
      assert (x + "\n" + rest)[1..] == x[1..] + "\n" + rest;
      SplitFromLine(x[1..], rest, cur + [x[0]]);
      assert cur + [x[0]] + x[1..] == cur + x;
    }
  }

  lemma {:induction false} SplitTerminated(parts: seq<string>)
    requires forall i :: 0 <= i < |parts| ==> NoLineBreak(parts[i])
    ensures SplitLines(Terminated(parts)) == parts
  {
    if parts != [] {
      SplitFromLine(parts[0], Terminated(parts[1..]), "");
      SplitTerminated(parts[1..]);
      assert "" + parts[0] == parts[0];
      assert [parts[0]] + parts[1..] == parts;
    }
  }

  function CountChar(s: string, c: char): nat
  {
    if s == [] then 0 else (if s[0] == c then 1 else 0) + CountChar(s[1..], c)
  }

  lemma {:induction false} CountCharConcat(a: string, b: string, c: char)
    ensures CountChar(a + b, c) == CountChar(a, c) + CountChar(b, c)
  {
    if a != [] {
      assert (a + b)[0] == a[0] && (a + b)[1..] == a[1..] + b;
      CountCharConcat(a[1..], b, c);
    } else {
      assert a + b == b;
    }
  }

  lemma {:induction false} NoLineBreakCount(s: string)
    requires NoLineBreak(s)
    ensures CountChar(s, '\n') == 0
  {
    if s != [] {
      NoLineBreakCount(s[1..]);
    }
  }

  lemma {:induction false} NewlinesOfTerminated(parts: seq<string>)
    requires forall i :: 0 <= i < |parts| ==> NoLineBreak(parts[i])
    ensures CountChar(Terminated(parts), '\n') == |parts|
  {
    if parts != [] {
      NewlinesOfTerminated(parts[1..]);
      NoLineBreakCount(parts[0]);
      CountCharConcat(parts[0], "\n", '\n');
      CountCharConcat(parts[0] + "\n", Terminated(parts[1..]), '\n');
    }
  }

  /** The body is NDJSON: it ends with a newline, holds exactly one newline per
      entry, and splitting it at newlines gives the entries back. */
  lemma PayloadIsNdjson(parts: seq<string>)
    requires parts != []
    requires forall i :: 0 <= i < |parts| ==> NoLineBreak(parts[i])
    ensures Payload(parts)[|Payload(parts)| - 1] == '\n'
    ensures CountChar(Payload(parts), '\n') == |parts|
    ensures SplitLines(Payload(parts)) == parts
  {
    PayloadTerminated(parts);
    NewlinesOfTerminated(parts);
    SplitTerminated(parts);
  }

  lemma PrintableNoBreak(s: string)
    requires Printable(s)
    ensures NoLineBreak(s)
  {
  }

  /** Lines read in text mode hold no newline, and neither do their stripped
      texts nor the headers, so each entry of `bulk_data` is one NDJSON line. */
  lemma {:induction false} EntriesAreLines(lines: seq<FileLine>, keep: FileLine -> bool, header: FileLine -> string)
    requires forall i :: 0 <= i < |lines| ==> NoLineBreak(lines[i].raw)
    requires forall i :: 0 <= i < |lines| ==> NoLineBreak(header(lines[i]))
    ensures forall i :: 0 <= i < |Pairs(lines, keep, header)| ==> NoLineBreak(Pairs(lines, keep, header)[i])
  {
    if lines != [] {
      var last := lines[|lines| - 1];
      var init := lines[..|lines| - 1];
      EntriesAreLines(init, keep, header);
      StripKeepsNoBreak(last.raw);
      var tail := if keep(last) then [header(last), Strip(last.raw)] else [];
      assert Pairs(lines, keep, header) == Pairs(init, keep, header) + tail;
      assert forall i :: 0 <= i < |tail| ==> NoLineBreak(tail[i]);
    }
  }

  lemma StripKeepsNoBreak(s: string)
    requires NoLineBreak(s)
    ensures NoLineBreak(Strip(s))
  {
    var r := Strip(s);
    StripContained(s);
    forall j | 0 <= j < |r| ensures r[j] != '\n' {
      ContainedCharsOccur(s, r, j);
    }
  }

  /** The keyed loader's body is well-formed NDJSON with two lines per document. */
  lemma KeyedBodyIsNdjson(lines: seq<FileLine>)
    requires forall i :: 0 <= i < |lines| ==> NoLineBreak(lines[i].raw)
    requires CountWhere(lines, Indexable) > 0
    ensures SplitLines(Payload(KeyedBulk(lines))) == KeyedBulk(lines)
    ensures CountChar(Payload(KeyedBulk(lines)), '\n') == 2 * CountWhere(lines, Indexable)
  {
    forall i | 0 <= i < |lines| ensures NoLineBreak(KeyedHeaderOf(lines[i])) {
      PrintableNoBreak(KeyedHeaderOf(lines[i]));
    }
    EntriesAreLines(lines, Indexable, KeyedHeaderOf);
    KeyedShape(lines);
    PayloadIsNdjson(KeyedBulk(lines));
  }

  /** The plain loader's body is well-formed NDJSON with two lines per forwarded line. */
  lemma PlainBodyIsNdjson(lines: seq<FileLine>)
    requires forall i :: 0 <= i < |lines| ==> NoLineBreak(lines[i].raw)
    requires CountWhere(lines, NonBlank) > 0
    ensures SplitLines(Payload(PlainBulk(lines))) == PlainBulk(lines)
    ensures CountChar(Payload(PlainBulk(lines)), '\n') == 2 * CountWhere(lines, NonBlank)
  {
    PlainHeaderPrintable();
    PrintableNoBreak(PLAIN_HEADER);
    EntriesAreLines(lines, NonBlank, PlainHeaderOf);
    PlainShape(lines);
    PayloadIsNdjson(PlainBulk(lines));
  }

  /** The parsed body of a 200 reply: its "errors" flag and its "items". */
  datatype BulkReply = BulkReply(errors: bool, items: seq<string>)

  /** What `requests.post` gives back: no connection, or a status, the body's
      text and, when that text is JSON, its parse. */
  datatype Reply = Unreachable | Reply(status: int, text: string, json: Option<BulkReply>)

  /** What a run of a loader reports. */
  datatype Report =
    | NoFile                               // the day's partition does not exist
    | EmptyFile                            // no document collected: nothing sent
    | PartialErrors(firstItem: string)     // accepted, with per-item errors; the first item is shown
    | Ingested                             // accepted without errors
    | ServerError(status: int, text: string)
    | ConnectionError                      // any exception around the request, the reply or its items

  /** Response handling (ingestion/bulk_ingest.py:64-84, bulk_ingest.py:57-78).
      A 200 reply that is not JSON, or that reports errors with no items, makes
      `response.json()` or `resp['items'][0]` raise into the connection handler. */
  function Classify(reply: Reply): (r: Report)
    ensures r.ServerError? <==> reply.Reply? && reply.status != 200
    ensures r.ServerError? ==> r == ServerError(reply.status, reply.text)
    ensures r.Ingested? <==> reply.Reply? && reply.status == 200 && reply.json.Some? && !reply.json.value.errors
    ensures r.PartialErrors? <==>
      reply.Reply? && reply.status == 200 && reply.json.Some? && reply.json.value.errors && reply.json.value.items != []
    ensures r.PartialErrors? ==> r.firstItem == reply.json.value.items[0]
    ensures !(r.NoFile? || r.EmptyFile?)
  {
    if reply.Unreachable? then ConnectionError
    else if reply.status != 200 then ServerError(reply.status, reply.text)
    else if reply.json.None? then ConnectionError
    else if !reply.json.value.errors then Ingested
    else if reply.json.value.items == [] then ConnectionError
    else PartialErrors(reply.json.value.items[0])
  }

  /** The line loop of ingestion/bulk_ingest.py:28-54. */
  method BuildKeyed(lines: seq<FileLine>) returns (bulkData: seq<string>, count: nat)
    ensures bulkData == KeyedBulk(lines) && count == CountWhere(lines, Indexable)
  {
    bulkData, count := [], 0;
    var i := 0;
    while i < |lines|
      invariant 0 <= i <= |lines|
      invariant bulkData == KeyedBulk(lines[..i]) && count == CountWhere(lines[..i], Indexable)
    {
      KeyedStep(lines, i);
      var line := Strip(lines[i].raw);
      if line != [] {
        var doc := lines[i].parsed;
        if doc.Value? && doc.v.Obj? {
          var itemId := doc.v.listing.id.Get();
          bulkData := bulkData + [KeyedHeader(itemId), line];
          count := count + 1;
        }
      }
      i := i + 1;
    }
    assert lines[..|lines|] == lines;
  }

  /** The line loop of bulk_ingest.py:31-46. */
  method BuildPlain(lines: seq<FileLine>) returns (bulkData: seq<string>, count: nat)
    ensures bulkData == PlainBulk(lines) && count == CountWhere(lines, NonBlank)
  {
    bulkData, count := [], 0;
    var i := 0;
    while i < |lines|
      invariant 0 <= i <= |lines|
      invariant bulkData == PlainBulk(lines[..i]) && count == CountWhere(lines[..i], NonBlank)
    {
      var line := Strip(lines[i].raw);
      PlainStep(lines, i);
      if line != [] {
        bulkData := bulkData + [PLAIN_HEADER, line];
        count := count + 1;
      }
      i := i + 1;
    }
    assert lines[..|lines|] == lines;
  }

  /** `ingest()` of ingestion/bulk_ingest.py: the body sent, if any, and the report. */
  method IngestKeyed(file: Option<seq<FileLine>>, reply: Reply) returns (sent: Option<string>, report: Report)
    ensures file.None? ==> sent == None && report == NoFile
    ensures file.Some? && CountWhere(file.value, Indexable) == 0 ==> sent == None && report == EmptyFile
    ensures file.Some? && CountWhere(file.value, Indexable) > 0 ==>
      sent == Some(Payload(KeyedBulk(file.value))) && report == Classify(reply)
  {
    if file.None? {
      return None, NoFile;
    }
    var bulkData, count := BuildKeyed(file.value);
    if count == 0 {
      return None, EmptyFile;
    }
    sent := Some(Payload(bulkData));
    report := Classify(reply);
  }

  /** `ingest()` of bulk_ingest.py: the body sent, if any, and the report. */
  method IngestPlain(file: Option<seq<FileLine>>, reply: Reply) returns (sent: Option<string>, report: Report)
    ensures file.None? ==> sent == None && report == NoFile
    ensures file.Some? && CountWhere(file.value, NonBlank) == 0 ==> sent == None && report == EmptyFile
    ensures file.Some? && CountWhere(file.value, NonBlank) > 0 ==>
      sent == Some(Payload(PlainBulk(file.value))) && report == Classify(reply)
  {
    if file.None? {
      return None, NoFile;
    }
    var bulkData, count := BuildPlain(file.value);
    if count == 0 {
      return None, EmptyFile;
    }
    sent := Some(Payload(bulkData));
    report := Classify(reply);
  }

  /** The ids the keyed loader sends documents under. */
  function IndexedIds(lines: seq<FileLine>): set<Option<string>>
  {
    set i | 0 <= i < |lines| && Indexable(lines[i]) :: LineId(lines[i])
  }

  lemma IndexedIdsSnoc(lines: seq<FileLine>)
    requires lines != []
    ensures var last := lines[|lines| - 1];
      IndexedIds(lines) == IndexedIds(lines[..|lines| - 1]) + if Indexable(last) then {LineId(last)} else {}
  {
    var init := lines[..|lines| - 1];
    forall x | x in IndexedIds(init) ensures x in IndexedIds(lines) {
      var i :| 0 <= i < |init| && Indexable(init[i]) && LineId(init[i]) == x;
      assert lines[i] == init[i];
    }
  }

  /** An index whose documents are keyed by the header's `_id`: applying a
      body overwrites each key with the last document sent for it. The keys
      afterwards are the old ones and the ids sent; any other key keeps its
      document. */
  function Upsert(index: map<Option<string>, string>, lines: seq<FileLine>): (r: map<Option<string>, string>)
    ensures r.Keys == index.Keys + IndexedIds(lines)
    ensures forall k :: k in index && k !in IndexedIds(lines) ==> r[k] == index[k]
  {
    if lines == [] then index
    else
      var last := lines[|lines| - 1];
      var before := Upsert(index, lines[..|lines| - 1]);
      IndexedIdsSnoc(lines);
      OverwriteStep(index, before, IndexedIds(lines[..|lines| - 1]), Indexable(last), LineId(last), Strip(last.raw));
      if Indexable(last) then before[LineId(last) := Strip(last.raw)] else before
  }

  /** One document more: its key joins the keys written, and every other key
      of the old index keeps its document. */
  lemma OverwriteStep<K, V>(index: map<K, V>, before: map<K, V>, written: set<K>, add: bool, k: K, v: V)
    requires before.Keys == index.Keys + written
    requires forall x :: x in index && x !in written ==> before[x] == index[x]
    ensures var r := if add then before[k := v] else before;
      var w := written + if add then {k} else {};
      && r.Keys == index.Keys + w
      && forall x :: x in index && x !in w ==> r[x] == index[x]
  {
  }

  lemma {:induction false} UpsertOverlays(index: map<Option<string>, string>, lines: seq<FileLine>)
    ensures Upsert(index, lines) == index + Upsert(map[], lines)
  {
    if lines != [] {
      var last := lines[|lines| - 1];
      var init := lines[..|lines| - 1];
      UpsertOverlays(index, init);
      if Indexable(last) {
        OverlayUpdate(index, Upsert(map[], init), LineId(last), Strip(last.raw));
      }
    }
  }

  lemma OverlayUpdate<K, V>(m1: map<K, V>, m2: map<K, V>, k: K, v: V)
    ensures (m1 + m2)[k := v] == m1 + m2[k := v]
  {
  }

  /** Loading the same partition again leaves the keyed index as it was after
      the first load: re-ingestion is an upsert. */
  lemma ReingestIsIdempotent(index: map<Option<string>, string>, lines: seq<FileLine>)
    ensures Upsert(Upsert(index, lines), lines) == Upsert(index, lines)
  {
    UpsertOverlays(index, lines);
    UpsertOverlays(Upsert(index, lines), lines);
  }

  /** The index as the plain loader of bulk_ingest.py fills it: its headers
      carry no `_id`, so the server files every document under an id of its
      own and nothing is overwritten. The index is the multiset of documents
      it holds; a body adds each forwarded line, stripped. */
  function AppendAll(index: multiset<string>, lines: seq<FileLine>): (r: multiset<string>)
    ensures index <= r
    ensures |r| == |index| + CountWhere(lines, NonBlank)
  {
    if lines == [] then index
    else
      var last := lines[|lines| - 1];
      var before := AppendAll(index, lines[..|lines| - 1]);
      if NonBlank(last) then before + multiset{Strip(last.raw)} else before
  }

  lemma {:induction false} AppendAllAdds(index: multiset<string>, lines: seq<FileLine>)
    ensures AppendAll(index, lines) == index + AppendAll(multiset{}, lines)
  {
    if lines != [] {
      AppendAllAdds(index, lines[..|lines| - 1]);
    }
  }

  /** Loading the same partition again through the plain loader holds every
      forwarded document twice: unlike the keyed loader, re-ingestion
      duplicates, and as soon as one line is forwarded the index differs from
      the index after one load. */
  lemma ReingestDuplicates(index: multiset<string>, lines: seq<FileLine>)
    ensures AppendAll(AppendAll(index, lines), lines)
            == index + AppendAll(multiset{}, lines) + AppendAll(multiset{}, lines)
    ensures |AppendAll(AppendAll(index, lines), lines)| == |index| + 2 * CountWhere(lines, NonBlank)
    ensures CountWhere(lines, NonBlank) > 0 ==> AppendAll(AppendAll(index, lines), lines) != AppendAll(index, lines)
  {
    AppendAllAdds(index, lines);
    AppendAllAdds(AppendAll(index, lines), lines);
  }
}
