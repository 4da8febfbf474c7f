# Wallapop watch radar: a Dafny model of the listing pipeline

The system watches second-hand watch listings on Wallapop. Its pipeline has five stages:

1. **Poll.** A poller queries the search API once per target keyword (a brand or model).
2. **Dedupe.** It skips every listing whose id it has already seen. The ledger of seen ids lives as long as the process and is never cleared; on start-up it is seeded from the day's partition.
3. **Enrich.** It scores the remaining listings for fraud risk and attaches an `enrichment` record.
4. **Persist.** It rewrites the day's partition file when something is new.
5. **Index.** A bulk loader pushes that partition to Elasticsearch as an NDJSON `_bulk` body.

Two Streamlit dashboards read the newest partition back. viewer.py filters the listings by price, risk, brand, city, seller and suspicious keyword. poller/viewer.py filters them by price range, risk threshold, brand and suspicious keyword.

This project models that pipeline's logic in Dafny and proves its properties. The model covers two generations of the poller, both bulk loaders and both dashboards.

| module | file | models |
|---|---|---|
| `Text` | text.dfy | `str.strip`, whitespace, substring search, lower-casing, `split(" (")[0]`, the `%Y%m%d` date stamp |
| `Records` | records.dfy | listings, enrichment records, JSON values as the programs see them, file lines with their parse result |
| `Seqs` | seqs.dfy | subsequences, reversal, counting and filtering |
| `StringOrder` | order.dfy | Python's string `<`, and `sorted(set(xs))` |
| `JsonText` | json_text.dfy | `json.dumps` of a string or null, and its inverse |
| `Risk` | risk.dfy | both `calculate_risk` scorers |
| `PollerV1`, `PollerV1Properties` | poller_v1.dfy, poller_v1_props.dfy | `poll_cycle` of poller/poller.py and what it guarantees |
| `PollerV2`, `PollerV2Properties` | poller_v2.dfy, poller_v2_props.dfy | `load_existing_data` and `poll_cycle` of pollerv2.py and what they guarantee |
| `Bulk` | bulk.dfy | both `ingest` functions: payload construction, framing, reply classification, upsert semantics of keyed documents |
| `Dashboard` | dashboard.dfy | viewer.py: loading, option lists, the filter loop, risk bands |
| `LiveDashboard` | live_dashboard.dfy | poller/viewer.py: tolerant loading, the filter loop and its count, badge, preview, item link |

## Inputs and outputs

Everything the programs take from outside is an input to the model:

- the fetch results, as one list of listings per target keyword, in keyword order;
- the lines of a partition, or its absence; each line carries its raw text and the result of `json.loads` on it;
- the HTTP reply of the `_bulk` request;
- the clock, as `clock(k)`: the instant at which the k-th new listing of a cycle is stamped;
- the sidebar's selection.

What a program would write or send is part of the result:

- the records written back to the partition (or `None` when nothing is written);
- the body of the `_bulk` request;
- the outcome the loader reports;
- the items a dashboard shows.

## Exceptions

Python exceptions that end a function are explicit outcomes in the model:

- **`PollerV1.Outcome.Aborted`.** It covers `float()` on a non-numeric amount and `fromtimestamp` on a bad `created_at`. The ids the cycle had already added to the ledger are kept.
- **`PollerV2.Outcome.Aborted`.** It covers an append to a partition value that is not a list, and `len()` of a number, null or boolean when nothing is new.
- **`Dashboard.FilterItems` returning `None`.** It covers a non-numeric amount compared with `min_price`.
- **The `Crash` verdict of `LiveDashboard.Judge`.** It covers a non-numeric amount, and a description object reached by the text search.
- **`LiveDashboard.Page` returning `None`.** It covers `.get` on a record that is not an object, while the brand options are built.

Exceptions that the source catches are modelled as what follows the `except`. That covers malformed lines, `.get` on a non-object and `"id" in` on a scalar.

## Model

| member | source | states |
|---|---|---|
| Text.Strip | ingestion/bulk_ingest.py:33 | the stripped line neither starts nor ends with whitespace |
| Text.StripTrims | ingestion/bulk_ingest.py:33 | the stripped line is the original with a whitespace-only prefix and a whitespace-only suffix cut off |
| Text.StripContained | ingestion/bulk_ingest.py:33 | the stripped line occurs inside the original line |
| Text.BlankIffAllSpace | poller/poller.py:112 | `not line.strip()` holds exactly when every character is whitespace |
| Text.LowerChar | poller/poller.py:65 | the lower-cased character is never an upper-case ASCII or Latin-1 letter, and any other character is left unchanged |
| Text.LowerIsLower | poller/poller.py:65 | a lower-cased text holds no upper-case ASCII or Latin-1 letter, and lower-casing it again changes nothing |
| Text.UpperNeverInLower | poller/poller.py:65-68 | a word holding an upper-case letter never occurs in a lower-cased text |
| Text.DateStampRoundTrip | poller/poller.py:47 | the 8-digit `%Y%m%d` stamp reads back as the year, month and day it was made from |
| StringOrder.Insert | viewer.py:90 | inserting into an ascending list keeps it ascending and adds exactly the new value |
| StringOrder.SortedSet | viewer.py:90 | `sorted(set(xs))` is ascending (so duplicate-free) and holds exactly the values of `xs` |
| StringOrder.SortedSetUnique | viewer.py:90 | two ascending lists with the same members are equal, so the option list depends only on the set of values |
| JsonText.Quote | ingestion/bulk_ingest.py:50 | the JSON text of a string is quoted and printable ASCII, as `json.dumps` writes it by default |
| JsonText.UnescapeEscape | ingestion/bulk_ingest.py:50 | decoding the escaped text of any string gives the string back, including surrogate pairs |
| JsonText.QuoteInjective | ingestion/bulk_ingest.py:43-50 | distinct strings have distinct JSON texts |
| Risk.ScanText | poller/poller.py:57-65 | the text both scorers scan (title, a space, and the description or its "original" field) holds no upper-case ASCII or Latin-1 letter |
| Risk.MatchesMembers | poller/poller.py:68 | `found` holds exactly the keywords that occur in the text, in keyword-list order |
| Risk.UpperCaseKeywordNeverFound | poller/poller.py:65-68 | a keyword with an upper-case letter is never found |
| Risk.AAANeverFound | poller/poller.py:28 | the listed keyword "AAA" can never match, in either scorer |
| Risk.ReferencePrice | poller/poller.py:75 | the brand's reference price, or 500 for a brand missing from the table |
| Risk.PriceIndex | poller/poller.py:76 | `rel` is `price / ref`, or 1.0 when the reference is 0 |
| Risk.RiskV1 | poller/poller.py:52-86 | the scorer raises exactly when the amount is not a number; otherwise it returns the assessment of that price |
| Risk.Factors | poller/poller.py:67-86 | the score is the total weight of the reported reasons and one of 0, 20, 40, 60, 80; the reasons come in detection order; the keyword, price and seller reasons each appear iff their check triggered, and no other reason appears |
| Risk.RiskV1Factors | poller/poller.py:68-84 | the keyword, price and seller reasons each appear iff their factor triggered, and no other reason appears |
| Risk.FactorMembers | poller/poller.py:68-84 | the reason list built from the three optional factors holds each factor's reason exactly when that factor triggered, and nothing else |
| Risk.PriceFactorExamples | poller/poller.py:74-79 | for a Rolex, price 30 triggers the price factor and price 2000 (index 0.5) does not |
| Risk.SellerFactorBoundary | poller/poller.py:82-84 | a seller count of 21 triggers the seller factor and a count of 20 does not |
| Risk.KeywordFactorOnce | poller/poller.py:68-71 | with several matching keywords there is still one keyword reason, and every matching keyword is listed |
| Risk.RiskV2 | pollerv2.py:37-62 | the score is the reasons' total weight saturated at 100; the keyword reason appears iff a keyword matched; the low-price reason appears iff 0 < price < 50; no other reason appears |
| Risk.RiskV2Factors | pollerv2.py:37-62 | `found` is exactly the v2 keywords occurring in the scanned text, in list order, and the score is `min(20*len(found) + (10 if 0 < price < 50 else 0), 100)` |
| Risk.CalculateRiskV2 | pollerv2.py:45-62 | the scoring loop computes exactly the `RiskV2` assessment |
| Risk.FactorsV2 | pollerv2.py:51-62 | from the keywords found and the low-price check: the score is the reasons' total weight capped at 100; the keyword reason appears iff some keyword was found; the low-price reason appears iff the price check held; keyword reason first; no other reason appears |
| Risk.ScorePriceV2 | pollerv2.py:51-62 | given a keyword score of 20 per keyword, the reason list, the low-price bonus and the cap give exactly the `FactorsV2` assessment |
| Risk.ScoreKeywords | pollerv2.py:45-49 | the keyword loop collects exactly the keywords found in the text, in list order, and scores 20 for each |
| Risk.ScoreV2Saturates | pollerv2.py:45-62 | five or more matching keywords give a score of 100 |
| Risk.UrgenteCountsTwice | pollerv2.py:45-49 | a text containing "urgente" matches both "urge" and "urgente" and scores at least 40 |
| Risk.UnparseablePriceAddsNothing | pollerv2.py:54-60 | a non-numeric amount is swallowed and scores like a zero amount |
| PollerV1.DailyFilename | poller/poller.py:46-50 | the partition is "logs/wallapop_watches_" + YYYYMMDD + ".json" |
| PollerV1.DailyFilenameInjective | poller/poller.py:46-50 | distinct days get distinct partitions |
| PollerV1.ConvertCreated | poller/poller.py:138-139 | a falsy stamp stays as is; a number in the clock's range becomes its ISO text; anything else raises |
| PollerV1.LoadLine | poller/poller.py:110-119 | one stored line only grows the ledger and the records; it adds a record iff it is non-blank and parses, and never adds a listing |
| PollerV1.Accept | poller/poller.py:128-147 | one fetched listing; its contract is stated by `AcceptStep` |
| PollerV1.AcceptStep | poller/poller.py:128-147 | every listing's id joins the ledger, even when scoring or converting raises; a seen id adds nothing; the added list grows by one exactly when the step goes on with a new id |
| PollerV1.AcceptUnscored | poller/poller.py:128-136 | a new listing whose amount is not a number raises, with its id already in the ledger |
| PollerV1.Close | poller/poller.py:150-156 | the end of the cycle; its contract is stated by `CloseOutcome` |
| PollerV1.CloseOutcome | poller/poller.py:150-156 | the cycle aborts iff a listing raised; a completed cycle writes iff `new_count > 0`, and what it writes is the whole record list |
| PollerV1.Cycle | poller/poller.py:102-156 | load, then every keyword in order, then close; its guarantees are the `PollerV1Properties` lemmas |
| PollerV1.Poller.constructor | poller/poller.py:44 | the process starts with an empty seen-id ledger |
| PollerV1.Poller.PollCycle | poller/poller.py:102-156 | the new ledger and the outcome are those of the functional cycle `Cycle` |
| PollerV1.Poller.LoadStored | poller/poller.py:106-121 | reading the partition leaves the ledger, tally and records of `Loaded` |
| PollerV1.Poller.LoadStoredLine | poller/poller.py:110-119 | one stored line updates the seen ids, the seller tally and the records as `LoadLine` says: blank and malformed lines change nothing |
| PollerV1.Poller.RunKeyword | poller/poller.py:124-148 | the listings of one keyword leave the state `Run` gives, or raise with the ledger `Run` gives |
| PollerV1.Poller.AcceptItem | poller/poller.py:128-147 | one listing: a seen id is skipped; otherwise the id is marked, the seller is tallied, and the listing is scored and appended, or the call raises |
| PollerV1Properties.AcceptKeepsFresh | poller/poller.py:128-147 | accepting a listing adds its id to the ledger, and keeps every added listing enriched, fresh and of distinct id |
| PollerV1Properties.LoadTallies | poller/poller.py:111-119 | after loading, each seller's tally is the number of loaded objects with that truthy seller id |
| PollerV1Properties.CycleLedgerGrows | poller/poller.py:116-131 | the ledger only grows, whether the cycle completes or raises |
| PollerV1Properties.CompletedCycle | poller/poller.py:123-153 | a completed cycle keeps the loaded records as a prefix. It appends exactly `new_count` enriched listings of pairwise distinct ids, none seen after loading. It writes iff `new_count > 0`. The ledger ends as the loaded ledger plus every fetched id |
| PollerV1Properties.EnrichedOnly | poller/poller.py:141-146 | every listing a cycle adds carries an enrichment |
| PollerV1Properties.NothingNewNoWrite | poller/poller.py:150-156 | when every fetched id is already known, nothing is added and nothing is written |
| PollerV1Properties.SellerTallies | poller/poller.py:117-134 | a seller's tally is its loaded records plus the listings added for it, so a listing is scored with that count + 1 |
| PollerV1Properties.SellerCountReported | poller/poller.py:117-136 | the k-th listing a cycle adds carries "High activity (n)" iff n > 20, where n is its seller's loaded records with a truthy id, plus the listings added for it before, plus one; no activity reason with another count appears |
| PollerV1Properties.LoadSeesStored | poller/poller.py:110-119 | loading only grows the ledger, and every stored object line leaves its id in it |
| PollerV1Properties.StoredNotReadded | poller/poller.py:110-147 | a completed cycle appends no listing whose id a stored object line carries |
| PollerV2.DailyFilename | pollerv2.py:64-66 | the partition is "wallapop_watches_" + YYYYMMDD + ".json" |
| PollerV2.DailyFilenameInjective | pollerv2.py:64-66 | distinct days get distinct partitions |
| PollerV2.CleanTimestamp | pollerv2.py:29-35 | a non-zero number becomes its ISO text, or null out of range; anything else passes through unchanged |
| PollerV2.CleanTimestampIdempotent | pollerv2.py:29-35 | cleaning a cleaned stamp changes nothing |
| PollerV2.LoadExisting | pollerv2.py:68-86 | a missing or malformed file gives `[]`; a non-array value is returned as is, with whether `len()` accepts it; an array is returned as is; the ledger only grows |
| PollerV2.SeedObjects | pollerv2.py:78-80 | an array of objects adds exactly the ids of the objects that have an "id" key |
| PollerV2.SeedFrom | pollerv2.py:78-80 | the seeding loop adds only ids of elements that have an "id" key, and never removes one |
| PollerV2.Accept | pollerv2.py:122-144 | one fetched listing; its contract is stated by `AcceptStep` |
| PollerV2.AcceptStep | pollerv2.py:122-144 | a new id raises iff the loaded value is not a list; every new id joins the ledger; the added list grows by one exactly when the id is new |
| PollerV2.Close | pollerv2.py:146-158 | the end of the cycle; its contract is stated by `CloseOutcome` |
| PollerV2.CloseOutcome | pollerv2.py:146-158 | the cycle aborts iff a listing raised or `len()` rejects the loaded value; an object or string with nothing new ends as `NotAList`; a completed cycle writes iff something is new |
| PollerV2.Cycle | pollerv2.py:109-158 | load, then every keyword in order, then close; its guarantees are the `PollerV2Properties` lemmas |
| PollerV2.Enrich | pollerv2.py:130-142 | the copy differs from the fetched listing only in the cleaned timestamps, the crawl date and the v2 enrichment with the keyword it was found by |
| PollerV2.Poller.constructor | pollerv2.py:27 | the process starts with an empty seen-id ledger |
| PollerV2.Poller.LoadExistingData | pollerv2.py:68-86 | the seeding loop leaves the ledger and list of `LoadExisting` |
| PollerV2.Poller.PollCycle | pollerv2.py:109-158 | the new ledger and the outcome are those of the functional cycle `Cycle`, including the abort on a number, null or boolean partition |
| PollerV2.Poller.RunKeyword | pollerv2.py:121-144 | the listings of one keyword leave the state `Run` gives |
| PollerV2.Poller.SweepKeywords | pollerv2.py:117-144 | the keyword loop leaves the ledger and the appended listings `Sweep` gives, or raises with the ledger `Sweep` gives |
| PollerV2.Poller.Save | pollerv2.py:146-158 | the end of the cycle returns the outcome `Close` gives: the list is written iff something is new |
| PollerV2Properties.AcceptKeepsFresh | pollerv2.py:122-144 | with a list loaded, accepting a listing never raises; it adds the id and keeps the added listings fresh, distinct and stamped |
| PollerV2Properties.CompletedCycle | pollerv2.py:113-153 | with a list loaded, the cycle completes. It keeps the list as a prefix and appends exactly `new_items_count` enriched listings of distinct, unseen ids. It writes iff something is new. The ledger gains every fetched id |
| PollerV2Properties.NothingNewNoWrite | pollerv2.py:124-158 | when every fetched id is known, nothing is added and nothing is written; a number, null or boolean partition still aborts at `len()` |
| PollerV2Properties.NotArrayAborts | pollerv2.py:78-144 | a partition holding a non-array value makes the first new listing raise, after its id joined the ledger |
| PollerV2Properties.NotArrayOutcome | pollerv2.py:78-158 | with a non-array value loaded, the cycle aborts iff some fetched id is new or `len()` rejects the value; otherwise it ends as `NotAList` |
| PollerV2Properties.StoredObjectsNotReadded | pollerv2.py:76-144 | no listing stored in the partition is appended again |
| Bulk.KeyedHeader | ingestion/bulk_ingest.py:43-50 | the header is the action JSON with alias "lab2.wallapop" and the listing id, and is printable ASCII |
| Bulk.KeyedHeaderInjective | ingestion/bulk_ingest.py:43-48 | distinct ids give distinct headers, so each document is keyed by its own listing |
| Bulk.PairsShape | ingestion/bulk_ingest.py:50-52 | `bulk_data` holds two entries per kept line: even positions hold headers and odd positions the stripped lines in file order |
| Bulk.KeyedShape | ingestion/bulk_ingest.py:28-54 | blank, malformed and non-object lines contribute nothing. Every object line contributes its id's header and its stripped text, in file order. The length is `2*count` |
| Bulk.PlainShape | bulk_ingest.py:31-46 | every non-blank line, parsable or not, is forwarded after the same key-less "lab1.wallapop" header, in file order; the length is `2*count` |
| Bulk.PayloadIsNdjson | ingestion/bulk_ingest.py:60 | the joined body ends with a newline, has one newline per entry, and splits back into its entries |
| Bulk.Payload | ingestion/bulk_ingest.py:60 | the body is non-empty and ends with a newline |
| Bulk.KeyedBodyIsNdjson | ingestion/bulk_ingest.py:50-60 | the keyed body is NDJSON with exactly `2*count` lines |
| Bulk.PlainBodyIsNdjson | bulk_ingest.py:42-53 | the plain body is NDJSON with exactly `2*count` lines |
| Bulk.Classify | ingestion/bulk_ingest.py:64-84 | a non-200 status reports the status and body. A 200 without errors reports success. A 200 with errors reports the first item. A missing reply, a non-JSON body or an empty item list is a connection error |
| Bulk.BuildKeyed | ingestion/bulk_ingest.py:28-54 | the loop builds `KeyedBulk(lines)` and counts the object lines |
| Bulk.BuildPlain | bulk_ingest.py:31-46 | the loop builds `PlainBulk(lines)` and counts the non-blank lines |
| Bulk.IngestKeyed | ingestion/bulk_ingest.py:19-84 | no file: nothing is sent. No object line: nothing is sent. Otherwise the NDJSON body is sent and the reply is classified |
| Bulk.IngestPlain | bulk_ingest.py:20-78 | no file: nothing is sent. No non-blank line: nothing is sent. Otherwise the NDJSON body is sent and the reply is classified |
| Bulk.Upsert | ingestion/bulk_ingest.py:41-46 | after the body the index holds the old ids plus every indexed line's id, and every id the body does not mention keeps its document |
| Bulk.UpsertOverlays | ingestion/bulk_ingest.py:41-46 | applying a keyed body overlays the index with the body's own id-to-document map |
| Bulk.ReingestIsIdempotent | ingestion/bulk_ingest.py:41-46 | ingesting the same partition twice leaves the keyed index as one ingestion does |
| Bulk.AppendAll | bulk_ingest.py:31-46 | the plain loader only adds documents, one per non-blank line |
| Bulk.ReingestDuplicates | bulk_ingest.py:31-46 | loading a partition twice through the plain loader holds every forwarded line twice: `2*count` more documents, unlike one load whenever `count > 0` |
| Dashboard.LoadData | viewer.py:53-73 | no file gives `[]`; otherwise the non-blank lines before the first malformed one, parsed, in reverse file order |
| Dashboard.ReadLines | viewer.py:66-71 | the loop reads exactly `ReadUntilError(lines)`: every parsed non-blank line up to the first malformed one |
| Dashboard.NothingAfterMalformed | viewer.py:66-71 | a malformed line hides every line after it |
| Dashboard.ReadsEveryLine | viewer.py:67-70 | without malformed lines, every non-blank line is read |
| Dashboard.AsListings | viewer.py:90 | the page gets past its first `.get` exactly when every loaded value is an object |
| Dashboard.BrandOptions | viewer.py:90 | the brand options are ascending (duplicate-free) and hold exactly the brands of the items, "Desconocida" for unenriched ones |
| Dashboard.CityOptions | viewer.py:95 | the city options are ascending and hold exactly the cities of the items |
| Dashboard.Dedupe | viewer.py:101 | the counter's keys: each user exactly once |
| Dashboard.SortByCount | viewer.py:103 | a permutation of the keys in non-increasing item count |
| Dashboard.SortedUsers | viewer.py:101-103 | every user exactly once, those with more items first |
| Dashboard.UserOptions | viewer.py:106 | "Todos", then one "u (n items)" entry per sorted user, with that user's count |
| Dashboard.SelectedUserRoundTrip | viewer.py:106-113 | splitting an entry on " (" gives back the user, when the id itself has no " (" |
| Dashboard.UserOptionsSelect | viewer.py:106-113 | every entry after "Todos" selects the user it lists |
| Dashboard.SelectedUser | viewer.py:110-113 | the user a dropdown entry selects; `SelectedUserRoundTrip` states its contract |
| Dashboard.FilterItems | viewer.py:127-159 | the loop raises iff some amount is not a number; otherwise it keeps exactly the items passing all six guards, in order |
| Dashboard.FilteredItems | viewer.py:127-159 | the kept items are an order-preserving subsequence, and an item is kept iff it passes every guard |
| Dashboard.Shown | viewer.py:127-159 | the six guards of the filter loop; `FilteredItems` states the loop against it |
| Dashboard.RiskBand | viewer.py:206-211 | the card colour; `RiskBandMonotone` and `RiskyFilterMatchesBands` state its contract |
| Dashboard.RiskBandMonotone | viewer.py:206-211 | a higher score never gets a lower band |
| Dashboard.RiskyFilterMatchesBands | viewer.py:141 | with "Riesgo > 30" ticked, no kept card is in the low band: the filter and the band agree on the threshold 30 |
| LiveDashboard.LoadLatestData | poller/viewer.py:75-104 | no directory or file gives `[]` and no name; otherwise the parsed non-blank lines, each malformed one skipped, in reverse order, with the file's name |
| LiveDashboard.ReadLines | poller/viewer.py:94-99 | the loop reads exactly `ReadTolerant(lines)` |
| LiveDashboard.ReadsEveryReadableLine | poller/viewer.py:94-99 | one value per non-blank parsable line, whatever lies around it |
| LiveDashboard.UntilErrorIsPrefix | poller/viewer.py:94-99 | the first dashboard's reading is a prefix of this one's |
| LiveDashboard.ReadersAgree | poller/viewer.py:94-99 | on a file with no malformed line both dashboards read the same records |
| LiveDashboard.Judge | poller/viewer.py:181-194 | an item is shown iff the price range, risk threshold, brand and keyword guards pass; the loop raises on it iff its amount is not a number or the text search meets a description object |
| LiveDashboard.FilterItems | poller/viewer.py:154-196 | the loop shows the items `Run` gives, and `count_shown` is their number |
| LiveDashboard.CrashSticks | poller/viewer.py:154-196 | once the loop has raised, later items change nothing |
| LiveDashboard.RunOutcome | poller/viewer.py:154-196 | the filter loop stops iff some item raises in it; otherwise the shown items are exactly those passing, in order, and `count_shown` counts them |
| LiveDashboard.PageOutcome | poller/viewer.py:136-196 | over the loaded records, the page stops before the loop iff some record is not an object; then the loop stops iff some record raises in it; otherwise it shows `count_shown` records, each a loaded one that passes |
| LiveDashboard.UnenrichedItemNeverMatchesABrand | poller/viewer.py:139-185 | an unenriched item is offered under "Desconocida" but filtered as "N/A", so it fails every brand selection without "N/A" |
| LiveDashboard.BadgeOf | poller/viewer.py:239-247 | the card badge; `BadgeAtLeastBand` and `BadgeMonotone` state its contract |
| LiveDashboard.BadgeAtLeastBand | poller/viewer.py:239-247 | the badge is never milder than the first dashboard's band for the same score |
| LiveDashboard.BadgeMonotone | poller/viewer.py:239-247 | a higher score never gets a milder badge |
| LiveDashboard.Preview | poller/viewer.py:223 | the preview is at most 203 characters. A text of at most 200 characters is kept whole. A longer one becomes its first 200 characters and "..." |
| LiveDashboard.ItemUrl | poller/viewer.py:178 | an empty slug links to "#"; any other slug links to the item page prefix followed by the slug |
| LiveDashboard.ItemUrlInjective | poller/viewer.py:178 | distinct slugs link to distinct pages |

## Left out

- HTTP is not modelled: `fetch_items`, `fetch_items_for_brand` and `requests.post`. Fetch results and replies are inputs.
- The file system is not modelled: `open`, `os.path.exists`, `os.makedirs`, `glob`, and the choice of the newest file by modification time. File contents, or their absence, are inputs.
- The `while True` loops, `time.sleep`, `main` and the console messages are not modelled.
- JSON parsing and serialisation are abstract. A line is its raw text plus the result of `json.loads`, and a record is a `Listing` value. Two things follow:
  - the text that `json.dumps(item, ensure_ascii=False)` writes for a record is not modelled;
  - a nested value inside a record is not modelled.
  - Only the bulk header's `json.dumps` is modelled as text, in `JsonText`.
- The clock is not modelled. `datetime.now` is a parameter: the date of the daily file, and `clock(k)` for each crawl date. `fromtimestamp` is reduced to an in-range test (`InClockRange`) and an `Iso(ms)` value; the ISO text itself and the local time zone are not modelled.
- Numbers are reals. Python floats, and the `:.2f` formatting in reason texts, are not modelled. A reason is a datatype value, not its formatted text.
- `Text.Lower` lower-cases ASCII and Latin-1 letters only. Other scripts pass through unchanged.
- `title` is absent or a string. A JSON `null` title, which `str(None)` turns into "None" and `title + " "` rejects, is not modelled.
- Listing ids are strings or null. Numeric ids are not modelled.
- The partition format mismatch is not reconciled. pollerv2.py writes the whole day as one JSON array. Every reader, both bulk loaders and both dashboards, reads JSON Lines. Each side is modelled on its own format.
- Elasticsearch itself is not modelled. `Bulk.Upsert` reduces it to an id-to-document map for keyed documents, and `Bulk.AppendAll` to a multiset of documents for the unkeyed documents of bulk_ingest.py. The fresh ids the server gives those documents are not modelled.
- Rendering is not modelled: Streamlit widgets, CSS, images, columns, expanders and auto-refresh. Only the data each card is built from is modelled: the band, badge, preview and link.
- LiveDashboard.LoadLatestData: an error while reading the file, other than a line that does not decode, is not modelled. The source catches it and keeps the lines read so far (poller/viewer.py:100-101).
- LiveDashboard.Preview: takes the description as a string. A description object reaching the preview is not modelled; in the filter loop it is modelled as the `Crash` it causes in the text search.
- Dashboard.SortedUsers: does not state the order among users with equal counts. That order is first occurrence, because `sorted` is stable; only the non-increasing count order is stated.
- `Records.Amount` distinguishes only numbers from everything else. A numeric string, which `float()` would accept in poller/poller.py and pollerv2.py, counts as non-numeric.
- The keyed loader of ingestion/bulk_ingest.py parses the stripped line, while poller/poller.py and both dashboards parse the raw line. The two differ only on a line framed by characters that `str.strip` removes but JSON does not accept as whitespace, such as a form feed or a no-break space. A line's parse result is an input, so this difference is not modelled.
- Null values of fields the source reads with a default are not modelled: a null "original" in a description object (which makes `desc` null and the concatenation raise at poller/poller.py:65), a null description at poller/viewer.py:192, and a null `user_id`, which viewer.py:106-113 lists as "None (n items)" and whose selection then matches nothing.
- Bulk.Upsert: a document whose id is null is keyed like any other, so several such documents fall on one key. What Elasticsearch does with a null `_id` is not modelled.
- LiveDashboard.PageOutcome: the button key `btn_{item_id}` (poller/viewer.py:259) is not modelled. Two shown cards with the same id stop the page with a duplicate-key error; two records without an id are such a pair.
- Dashboard.FilterItems: the checkbox key `item.get("id")` (viewer.py:243) is not modelled. Two shown cards with the same id stop the page in the same way.
