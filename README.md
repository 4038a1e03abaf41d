# Market dashboard core, modelled in Dafny

The system is a small market dashboard. A Node server polls Polygon.io
REST endpoints. From the results it builds stock quotes and index quotes,
and it pushes them to browsers over Socket.IO. A sector module also defines
a sector heatmap and a poll for it, which the server never starts. It also
serves historical bars on `/api/bars`. The Next.js front end keeps the
pushed quotes in maps keyed by symbol. Its chart page draws candles from
the history and widens the last candle with each live quote.

This project models the logic of that pipeline:

- `seqs.dfy` (module `Seqs`) holds the JavaScript collection idioms the
  core relies on, with their properties proved once:
  - `filter`, and `filter(Boolean)` (`Somes`);
  - `[...new Set(...)]` (`Dedup`);
  - the "copy, then assign `next[key] = item` in order" fold (`Upsert`);
  - order preservation (`IsSubsequence`).
- `market_data.dfy` (module `MarketData`) holds the snapshot and quote
  records. JSON fields that may be absent are `Option`s. An absent
  sub-object is written as a record whose fields are all `None`.
- `sector_heatmap.dfy` (module `SectorHeatmap`) holds the sector rollup:
  - `asQuote`;
  - the loop that files snapshots by symbol;
  - the per-sector summary and the market breadth.
- `polygon.dfy` (module `Polygon`) holds:
  - the stock quote normalisation of `fetchQuote` and the poll of
    `startPolygonFeed`;
  - the index normalisation of `fetchIndices`, with `indexDisplayName`.
- `server.dfy` (module `Server`) holds:
  - the `/api/bars` checks, their order and their error responses;
  - the bar mapping;
  - the `subscribe`, `subscribeIndices` and `subscribeSectorHeatmap`
    handlers, on a `ClientSocket` object.
- `charts.dfy` (module `Charts`) holds:
  - `RANGES`, `bucketTime` and the candle and volume mapping;
  - the live-candle merge;
  - the page's candle state as a `LiveChart` object.
- `socket_quotes.dfy` (module `SocketQuotes`) holds the two browser
  reducers for the `quotes` and `indexQuotes` events.

How JavaScript is modelled:

- `a ?? b` becomes `Option.GetOr`, which keeps a present zero.
- Truthiness tests (`!price`, `open ? … : 0`, `p || d`) are written out as
  explicit comparisons with `0` or `""`.
- Numbers are `real`. `Number(text)` on a query parameter is the
  datatype `NumValue` (finite, NaN, +Infinity or -Infinity), so that
  `Number.isFinite` and `Math.min` are exact.
- Integer milliseconds use Dafny's `/`. It agrees with `Math.floor(t / 1000)`
  for every integer, negative ones included.
- Network answers are parameters of type `Fetch<T>` (`FetchFailed` or
  `Fetched(body)`). These stand for a rejected or thrown `fetch`/`json()`
  and a parsed body.
- `Date.now()` is the parameter `now`.
- The API key is the parameter `apiKey`.

Behaviour of the code that the model keeps as written:

- The server has no streaming market-data connection. `polygon.js` polls
  quotes and indices every ten seconds. `sectorHeatmap.js` defines a
  ten-second heatmap poll (`startSectorHeatmapFeed`, line 111). No file
  starts it: `server/src/index.js:114-118` starts only `startPolygonFeed`
  and `startPolygonIndexFeed`. Because of the failing import below, the
  server as written polls nothing at all.
- `fetchQuote` does not make a quote's low–high range contain its price
  (`Polygon.QuoteRangeMayExcludePrice`).
- `asQuote` drops a snapshot whose previous close is 0 or absent. It does
  not publish such a snapshot with a change percent of 0
  (`SectorHeatmap.AsQuote`).
- `server/src/index.js:6` imports `buildHeatmapPayload`, but
  `server/src/sectorHeatmap.js` exports only `startSectorHeatmapFeed`
  (line 111). ES module linking refuses such an import.
- The third argument that `server/src/index.js:114-117` passes to
  `startPolygonFeed` is ignored: the function takes two parameters
  (`server/src/polygon.js:96`).

  Because of these two wiring problems, the heatmap is modelled as the
  sector module computes it (`SectorHeatmap.PollSectorHeatmap`). It is not
  modelled as the path through `index.js`.

## Model

| member | source | states |
|---|---|---|
| SectorHeatmap.AsQuote | server/src/sectorHeatmap.js:18-32 | A snapshot is dropped iff its price or its previous close is 0 (absent counts as 0). Otherwise the quote carries the ticker and the price. The upstream `todaysChange`/`todaysChangePerc` are kept when present. When absent, they are the price difference and the percentage of the previous close that this difference is. |
| SectorHeatmap.AsQuotePriceSource | server/src/sectorHeatmap.js:19-20 | The price is the day close when present, else the last trade, else the previous close. |
| SectorHeatmap.AsQuoteFallsBackToFlat | server/src/sectorHeatmap.js:19-31 | A snapshot with only a previous close becomes a quote at that close, with change and change percent 0. |
| SectorHeatmap.ZeroDayCloseRejects | server/src/sectorHeatmap.js:20-21 | A day close of 0 is kept by the nullish fallback, hides the last trade, and makes the snapshot rejected. |
| SectorHeatmap.BySymbolOf | server/src/sectorHeatmap.js:46-51 | Every key of `bySymbol` maps to a quote of that very symbol, and a symbol is a key iff some snapshot with that ticker parses. |
| SectorHeatmap.BySymbolEntriesParsed | server/src/sectorHeatmap.js:46-51 | Every entry of `bySymbol` is the parsed quote of some snapshot, filed under its own symbol. |
| SectorHeatmap.BySymbolLastWins | server/src/sectorHeatmap.js:46-51 | Every snapshot that parses is filed. Of all the parsing snapshots for a symbol, the last one is kept. |
| SectorHeatmap.FetchAllSectorQuotes | server/src/sectorHeatmap.js:34-57 | Without a key, or on a failed request, the result is null. Otherwise it is the symbol map built from `tickers`, and a non-array `tickers` counts as empty. |
| SectorHeatmap.ConcatSymbols | server/src/sectorHeatmap.js:37 | The flattened symbol list holds exactly the symbols of the configured sectors. |
| SectorHeatmap.RequestedSymbols | server/src/sectorHeatmap.js:37 | The request list holds every configured symbol and no others, each once. |
| SectorHeatmap.KnownMembers | server/src/sectorHeatmap.js:69-71 | The members are no more than the constituents, all of them when every constituent is quoted, and each member is the quote of some constituent. |
| SectorHeatmap.KnownMembersAppend | server/src/sectorHeatmap.js:69-71 | Looking up members and dropping the missing ones distributes over concatenation of the constituent list. |
| SectorHeatmap.KnownMembersCount | server/src/sectorHeatmap.js:69-71 | With distinct constituents, the member count is the number of constituents that have a quote. |
| SectorHeatmap.MembersFollowConfiguredOrder | server/src/sectorHeatmap.js:69-97 | When the first three constituents all have quotes, those three are the members shown, in configured order. |
| SectorHeatmap.SignPartition | server/src/sectorHeatmap.js:73-75 | Advancing, declining and exactly-flat members partition the members. |
| SectorHeatmap.SummaryOf | server/src/sectorHeatmap.js:72-98 | A summary keeps the sector's id and name, and its total is the number of known members. Advancing and declining are the counts of members with positive and negative change percent. Advancing, declining and unchanged add up to the total, and unchanged is exactly the flat count, so the clamp at 0 never applies. It shows the first `min(3, total)` known members. Its performance is the mean change percent, or 0 for no members. |
| SectorHeatmap.Summarize | server/src/sectorHeatmap.js:68-99 | A configured sector's summary keeps its id and name, counts no more members than the sector has constituents, and counts all of them when every constituent is quoted. |
| SectorHeatmap.ShownMembersAreQuoted | server/src/sectorHeatmap.js:69-97 | Every member shown is the quote `bySymbol` holds for one of the sector's constituents. |
| SectorHeatmap.Summaries | server/src/sectorHeatmap.js:68-99 | The summaries of a sector table are one per sector, in table order, each that sector's summary. |
| SectorHeatmap.SumsSnoc | server/src/sectorHeatmap.js:81-87 | Each breadth accumulator over one more sector grows by exactly that sector's share: its advancing, declining and total counts, and its performance when it has members. |
| SectorHeatmap.BreadthOf | server/src/sectorHeatmap.js:101-106 | Breadth sums the sectors' advancing, declining and total counts. Its average performance is the mean over the sectors that have at least one member, and 0 when there are none. |
| SectorHeatmap.SummariesSnoc | server/src/sectorHeatmap.js:68-99 | Summarising one more sector of the table appends exactly that sector's summary to the summaries so far. |
| SectorHeatmap.TallySectors | server/src/sectorHeatmap.js:62-99 | The sector callback run over the table gives the summaries of the table, in order. Its five running totals equal the advancing, declining and total sums of those summaries, and the sum and count of the performances of the sectors that have members. |
| SectorHeatmap.BreadthFromTotals | server/src/sectorHeatmap.js:101-106 | A breadth object built from totals equal to those sums is the breadth of the summaries. |
| SectorHeatmap.BuildHeatmapPayloadFor | server/src/sectorHeatmap.js:59-109 | Null input gives no sectors and no breadth. Otherwise there is one summary per configured sector, in table order, and the breadth of those summaries. |
| SectorHeatmap.BuildHeatmapPayload | server/src/sectorHeatmap.js:59-109 | The same result, over the ten `TOP_SECTORS`. |
| SectorHeatmap.BreadthCountsConsistent | server/src/sectorHeatmap.js:73-106 | Market-wide advancing plus declining never exceed the total, and the total never exceeds the number of configured symbols. |
| SectorHeatmap.BreadthSkipsEmptySectors | server/src/sectorHeatmap.js:82-105 | A sector without members is left out of the average performance (+1, +3 and an empty sector average to 2). |
| SectorHeatmap.TopSectorsShape | server/src/sectorHeatmap.js:5-16 | The table has ten sectors, each with six distinct constituents. |
| SectorHeatmap.PollSectorHeatmap | server/src/sectorHeatmap.js:111-116 | Each poll publishes the empty payload without a key or on a failed request. Otherwise it publishes, for each of the ten configured sectors in order, that sector's summary over the quotes filed from the response, and the breadth of those summaries. |
| Polygon.QuoteOf | server/src/polygon.js:17-37 | Each field follows its fallback chain. Open is the day open, else the previous close, else the previous open, else 0. High and low are the day values, else the open. Price is the last trade, else the day close, else the previous close, else the open. Volume is the day volume, else the previous-day volume, else 0. Close equals the price, and a present zero is never replaced. |
| Polygon.FetchQuote | server/src/polygon.js:10-42 | The result is null iff there is no key or the request failed. Otherwise it is the normalised quote. |
| Polygon.QuoteBeforeOpenIsFlat | server/src/polygon.js:22-26 | With only the previous day known, the quote is flat at the previous close. |
| Polygon.QuoteKeepsZeroOpen | server/src/polygon.js:22 | A day open of 0 is used even when the previous close is known. |
| Polygon.QuoteRangeMayExcludePrice | server/src/polygon.js:23-25 | A concrete snapshot whose quoted price lies above the quoted high: the low–high range is not guaranteed to contain the price. |
| Polygon.PollResults | server/src/polygon.js:98 | There is one result per configured symbol, and position `i` holds exactly what fetching a quote for the `i`-th symbol gives on the answer to its own request. |
| Polygon.PolledQuotes | server/src/polygon.js:97-99 | The published list has no more entries than there are symbols. Each published quote carries a configured symbol, and it is the normalised snapshot answered for that symbol, under a set key. |
| Polygon.PollResultsSymbols | server/src/polygon.js:98 | The quote at position `i` of the results carries the `i`-th configured symbol. |
| Polygon.PublishedIffAnswered | server/src/polygon.js:97-99 | A configured symbol is published iff the key is set and its request was answered. |
| Polygon.PolledQuotesWithoutKey | server/src/polygon.js:96-99 | Without a key nothing is published. |
| Polygon.PolledQuotesOrder | server/src/polygon.js:98-99 | The symbols of the published quotes follow the configured symbol order. |
| Polygon.PolledQuotesComplete | server/src/polygon.js:98-99 | With a key and every request answered, no symbol is dropped. |
| Polygon.IndexDisplayName | server/src/polygon.js:86-94 | The four default tickers get their display names. Any other ticker is its own name, and only those are. |
| Polygon.ByTicker | server/src/polygon.js:56-57 | The error-free results, filed in order under their tickers with `Upsert`. What the map holds is stated by `Polygon.ByTickerKeys`, `Polygon.ByTickerLastWins` and `Polygon.ByTickerEntries`. |
| Polygon.ByTickerKeys | server/src/polygon.js:56-57 | A ticker is indexed iff some result for it came back without error. |
| Polygon.ByTickerLastWins | server/src/polygon.js:56-57 | Every error-free result is indexed. Among error-free results for one ticker, the last one wins. |
| Polygon.ByTickerEntries | server/src/polygon.js:56-57 | Every indexed entry is an error-free result, filed under its own ticker. |
| Polygon.IndexQuoteOf | server/src/polygon.js:63-77 | The value is the result's value, else the session close, else the previous close, else 0. Open is the session open, else the previous close, else the value. High and low fall back to the value. Change falls back to value − open. Change percent falls back to the percentage of open, and is 0 when open is 0. |
| Polygon.IndexQuotesFor | server/src/polygon.js:58-79 | The output never has more entries than there are requested tickers. Its contents are stated by `Polygon.IndexQuotesForShape`. |
| Polygon.IndexQuotesForShape | server/src/polygon.js:60-62 | The output lists exactly the requested tickers that have a result, in request order, each built from its own result. |
| Polygon.FetchIndices | server/src/polygon.js:48-84 | Without a key, or on a failed request, the result is `[]`. Otherwise it is the quotes built from the error-free results (a missing `results` counts as empty). The quotes always follow request order, and each carries a requested ticker and that ticker's display name. |
| Polygon.IndexListedIff | server/src/polygon.js:56-62 | A requested ticker is listed iff some result for it came back without error. |
| Polygon.PollIndices | server/src/polygon.js:108-112 | One index poll is the default tickers' quotes: empty without a key or on a failed request, otherwise those built from the error-free results. They follow the default order, and every one carries its display name. |
| Server.UpperCase | server/src/index.js:25 | Upper-casing keeps the length and maps each character independently. |
| Server.CapLimit | server/src/index.js:47 | The capped limit is never +Infinity and never a finite value above 50000. Values at or below the cap pass unchanged; larger ones and +Infinity become 50000. NaN and −Infinity pass through. |
| Server.CheckBarsQuery | server/src/index.js:21-43 | The checks run in order: key (500), symbol (400), timespan, multiplier, dates; the first failing check decides the error. A request is accepted iff all checks pass. The accepted request is exactly the upper-cased symbol (or SPY), the multiplier (or 5), the timespan (or minute), the two dates and the capped limit (or 1000). |
| Server.DefaultsAccepted | server/src/index.js:25-30 | Given only the dates, the request is SPY, 5-minute bars, limit 1000. |
| Server.LowerCaseSymbolAccepted | server/src/index.js:25-34 | A lower-case symbol is upper-cased and then accepted. |
| Server.LongSymbolRejected | server/src/index.js:32-34 | A symbol longer than fifteen characters is refused. |
| Server.IsValidSymbol | server/src/index.js:32 | One to fifteen characters, each an upper-case ASCII letter, a colon or a dot. What it accepts and refuses is stated by `Server.ValidSymbolIsUpperCase` and `Server.SymbolPatternExamples`. |
| Server.ValidSymbolIsUpperCase | server/src/index.js:25-34 | Upper-casing leaves every symbol that matches the pattern unchanged. |
| Server.SymbolPatternExamples | server/src/index.js:32-34 | The symbol pattern accepts index tickers (`I:SPX`), class shares (`BRK.B`) and fifteen letters, and refuses the empty string, lower case, digits and sixteen letters. |
| Server.MapBar | server/src/index.js:52-59 | The bar time is the second that contains the millisecond timestamp. OHLC are copied, and a missing volume is 0. |
| Server.MapBars | server/src/index.js:50-59 | Non-array results give no bars. Otherwise there is one mapped bar per result, in order. |
| Server.HandleBars | server/src/index.js:20-69 | A rejected query answers its error. A failed upstream request answers 500 "Failed to fetch bars". Otherwise the body has the symbol, the mapped bars and their count. |
| Server.AsList | server/src/index.js:83 | An array argument is taken as it is, any other value as a list of one. |
| Server.StringEntries | server/src/index.js:84-86 | A value is a string entry iff the list holds it as a string. |
| Server.StringEntriesCount | server/src/index.js:84-86 | Each string entry is kept as often as the list holds it. |
| Server.StringEntriesInOrder | server/src/index.js:84-86 | The string entries keep the list's order. |
| Server.ValidSubscriptions | server/src/index.js:83-86 | A symbol is kept iff it is a string entry of the argument and one of the default symbols. |
| Server.ValidSubscriptionsExact | server/src/index.js:83-86 | Each default symbol is kept as often as the argument holds it, every other value never, and the kept symbols follow the argument's order. |
| Server.ClientSocket.constructor | server/src/index.js:81 | A new connection is in none of the three named rooms and has no symbols. |
| Server.ClientSocket.Subscribe | server/src/index.js:82-91 | With at least one valid symbol, the socket joins `quotes` and records the valid symbols. Otherwise nothing changes. |
| Server.ClientSocket.SubscribeIndices | server/src/index.js:93-95 | The socket joins `indexQuotes`. |
| Server.ClientSocket.SubscribeSectorHeatmap | server/src/index.js:97-99 | The socket joins `sectorHeatmap`. |
| Charts.Ranges | frontend/app/charts/page.tsx:23-30 | Every range asks for a positive multiplier over a positive number of days. Its live bucket is exactly as long as one of its bars, and its look-back window holds no more buckets than the 5000 bars requested. |
| Charts.HistoryQuery | frontend/app/charts/page.tsx:147-151 | The `/api/bars` query for a symbol, a range and two dates, with the range's multiplier and timespan and a limit of 5000. That the server accepts it unchanged is stated by `Charts.HistoryQueriesAccepted`. |
| Charts.HistoryQueriesAccepted | frontend/app/charts/page.tsx:147-151 | Every history query the page sends passes the server's checks, with its symbol, multiplier, timespan, dates and a limit of 5000. |
| Charts.BucketTime | frontend/app/charts/page.tsx:38-40 | The bucket start is a multiple of the bucket length, and lies within one bucket length at or before `now`. |
| Charts.BucketTimeUnique | frontend/app/charts/page.tsx:38-40 | It is the only such multiple. |
| Charts.BucketTimeIdempotent | frontend/app/charts/page.tsx:38-40 | Bucketing a bucket start gives it back. |
| Charts.ToCandles | frontend/app/charts/page.tsx:160-166 | There is one candle per fetched bar, in order, with that bar's time, open, high, low and close; a missing `bars` gives none. |
| Charts.ToVolumes | frontend/app/charts/page.tsx:167-171 | There is one volume bar per fetched bar, in order, at that bar's time. A missing volume is 0, and a bar is green iff it closed at or above its open; a missing `bars` gives none. |
| Charts.NextCandle | frontend/app/charts/page.tsx:202-208 | The next candle is in the live bucket, closes at the live price and spans it. In the last candle's bucket it keeps that open and only widens the range; in a new bucket it opens at the last close. It is well formed whenever the candle it extends is. |
| Charts.MergeLive | frontend/app/charts/page.tsx:198-214 | An empty series is left alone. A live price in the last candle's bucket widens that candle; the open is kept, high and low are extended, and close is the price. Otherwise a new candle opening at the last close is appended. Earlier candles are untouched. |
| Charts.MergeLiveKeepsShape | frontend/app/charts/page.tsx:202-208 | After a merge, every candle still has open and close within low–high. |
| Charts.MergeLiveKeepsOrder | frontend/app/charts/page.tsx:202-214 | When the live bucket is not earlier than the last candle, the series stays strictly ordered by time. |
| Charts.MergeLiveEarlierBucketAppends | frontend/app/charts/page.tsx:196-214 | Take a daily history bar starting at 05:00 UTC, with "now" one minute later. The UTC-midnight bucket is earlier, so the new candle is appended out of order. |
| Charts.LiveChart.constructor | frontend/app/charts/page.tsx:54-55 | The page starts with no candles, for the selected range. |
| Charts.LiveChart.SelectRange | frontend/app/charts/page.tsx:65-67 | The selected range becomes the one that later live updates bucket by. |
| Charts.LiveChart.LoadHistory | frontend/app/charts/page.tsx:152-185 | Fetched history replaces the candle series with the candles of its bars. A failed or refused request empties the series. |
| Charts.LiveChart.OnLiveQuote | frontend/app/charts/page.tsx:192-219 | Without a live quote, without a chart, or with no candles, nothing changes. Otherwise the series becomes the merge at the current bucket, and the candle handed to the chart is its new last candle, in that bucket. |
| SocketQuotes.MergeBySymbol | frontend/lib/useSocketQuotes.ts:48-53 | The new map has the old keys plus the incoming symbols. The last incoming item for a symbol wins. Symbols not in the payload keep their old quote. |
| SocketQuotes.QuotesList | frontend/lib/useSocketQuotes.ts:49 | An array payload is taken as it is, a single quote as a list of one. |
| SocketQuotes.OnQuotes | frontend/lib/useSocketQuotes.ts:46-55 | A single quote replaces just its own entry. A list is filed in order, adding exactly its symbols. |
| SocketQuotes.IndexQuotesList | frontend/lib/useSocketIndexQuotes.ts:53 | A missing payload is taken as no quotes, an array as it is. |
| SocketQuotes.OnIndexQuotes | frontend/lib/useSocketIndexQuotes.ts:50-58 | A missing payload leaves the map as it was. A list is filed in order, adding exactly its symbols. |
| Seqs.UpsertLastWins | frontend/lib/useSocketQuotes.ts:50-52 | In the ordered-assignment fold, the last item for a key is kept. |
| Seqs.UpsertUntouched | frontend/lib/useSocketQuotes.ts:48-52 | Keys no item maps to keep their old value. |
| Seqs.UpsertEntryOrigin | frontend/lib/useSocketQuotes.ts:48-52 | Every entry is either an item filed under its own key or an untouched old entry. |
| Seqs.Dedup | server/src/sectorHeatmap.js:37 | Deduplication keeps exactly the same members, each once. |
| Seqs.DedupIsSubsequence | server/src/sectorHeatmap.js:37 | Deduplication keeps the original order. |
| Seqs.DedupPrefix | server/src/sectorHeatmap.js:37 | Deduplicating a longer list only appends, so every value keeps the place of its first occurrence. |
| Seqs.DedupAppendsNew | server/src/sectorHeatmap.js:37 | A value not seen before is appended at the end. |
| Seqs.FilterIsSubsequence | server/src/index.js:84-86 | Filtering keeps order. |
| Seqs.FilterComplete | server/src/index.js:84-86 | Filtering keeps every element that passes the test. |
| Seqs.FilterMultiplicity | server/src/index.js:84-86 | A kept value occurs in the filter as often as in the list, and a dropped one not at all. |
| Seqs.SomesComplete | server/src/polygon.js:99 | Dropping nulls keeps every non-null value. |
| Seqs.SomesKeysInOrder | server/src/polygon.js:98-99 | When each non-null value carries the key of its position, the keys of the kept values follow the order of the keys. |

## Left out

- Network I/O: every `fetch` and `json()` is the parameter `Fetch<T>`. URL building, `encodeURIComponent` and the error logging are not modelled.
- Polygon.PollResults: every quote of one poll gets the same `now`, and a symbol listed twice gets the same answer both times. The code sends one request per list entry, and each `fetchQuote` reads the clock itself. This makes no difference for the distinct default symbols.
- Timers and concurrency: `setInterval`, the initial `poll()` and `Promise.all`'s concurrency are not modelled. A poll is one call over the answers it receives.
- Socket.IO transport: connection, disconnection, broadcasting to rooms (`broadcastQuotes`, `broadcastIndexQuotes`, `broadcastSectorHeatmap`) and the client sockets. A room is a set of names, and a broadcast is the value a poll returns.
- `startPolygonIndexFeed`: one poll is `Polygon.PollIndices`. The timer around it and the hand-over to the broadcast are left out.
- Floating point: numbers are reals, so rounding and the −0/+0 split are not modelled. NaN appears only where `Number(text)` on a query parameter can produce it.
- Upstream JSON of the wrong type (a numeric field holding a string, a missing `ticker` keyed as `"undefined"`) is not modelled. A non-array `tickers`, `results` or `bars` counts as empty, as in the code.
- Repeated query parameters, which Express turns into arrays, are not modelled.
- Plain-object key lookups that would hit inherited properties (such as `constructor`) are not modelled. No configured symbol is such a name.
- Server.UpperCase: maps only ASCII `a`–`z`. The model does not capture non-ASCII characters that `toUpperCase` turns into ASCII letters (such as `ſ` into `S`).
- React state holders (`useState`, `setQuotes`, refs), the `connected` flag, and chart creation, resizing and styling (`frontend/app/charts/page.tsx:70-135`) are left out. The hooks are modelled as their reducers.
- The chart library's `setData`/`update` calls: the model returns the data handed to them.
- `dateYmd` and the `from`/`to` dates of the history query are parameters. Day arithmetic on dates is not modelled; nor are the loading and error flags of the chart page.
- The heatmap front end (`frontend/lib/useSectorHeatmap.ts`, `frontend/components/`) only displays what the server sends, and is not part of this model.
- Server.HandleBars: the 500 body of a failed upstream request also carries the exception's `message` field (`server/src/index.js:67`). The model keeps only the error text, because the exception message comes from the network layer, which is not modelled.
