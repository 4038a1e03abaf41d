/** Snapshot normalisation for single stock quotes and for the index feed:
    the fallback chains of each field, the order-preserving index list, and
    the stock poll that drops the symbols without a quote. */
module Polygon {
  import opened Wrappers
  import opened Seqs
  import opened MarketData

  // ---------------------------------------------------------------------
  // Stock quotes
  // ---------------------------------------------------------------------

  /** The quote `fetchQuote` builds from the snapshot's `ticker` object
      (an absent object has every field absent). */
  function QuoteOf(symbol: string, t: TickerSnapshot, now: int): (q: Quote)
    ensures q.symbol == symbol && q.timestamp == now
    ensures q.close == q.price
    ensures t.day.o.Some? ==> q.open == t.day.o.value
    ensures t.day.o.None? && t.prevDay.c.Some? ==> q.open == t.prevDay.c.value
    ensures t.day.o.None? && t.prevDay.c.None? && t.prevDay.o.Some? ==> q.open == t.prevDay.o.value
    ensures t.day.o.None? && t.prevDay.c.None? && t.prevDay.o.None? ==> q.open == 0.0
    ensures q.high == (if t.day.h.Some? then t.day.h.value else q.open)
    ensures q.low == (if t.day.l.Some? then t.day.l.value else q.open)
    ensures t.lastTradePrice.Some? ==> q.price == t.lastTradePrice.value
    ensures t.lastTradePrice.None? && t.day.c.Some? ==> q.price == t.day.c.value
    ensures t.lastTradePrice.None? && t.day.c.None? && t.prevDay.c.Some? ==> q.price == t.prevDay.c.value
    ensures t.lastTradePrice.None? && t.day.c.None? && t.prevDay.c.None? ==> q.price == q.open
    ensures t.day.v.Some? ==> q.volume == t.day.v.value
    ensures t.day.v.None? ==> q.volume == t.prevDay.v.GetOr(0.0)
  {
    var day, prev := t.day, t.prevDay;
    var open := day.o.GetOr(prev.c.GetOr(prev.o.GetOr(0.0)));
    var high := day.h.GetOr(open);
    var low := day.l.GetOr(open);
    var price := t.lastTradePrice.GetOr(day.c.GetOr(prev.c.GetOr(open)));
    var volume := day.v.GetOr(prev.v.GetOr(0.0));
    Quote(symbol, price, open, high, low, price, volume, now)
  }

  /** `fetchQuote`: no quote without an API key or when the request fails. */
  function FetchQuote(apiKey: string, symbol: string, response: Fetch<TickerSnapshot>, now: int): (r: Option<Quote>)
    ensures r.None? <==> apiKey == "" || response.FetchFailed?
    ensures r.Some? ==> r.value == QuoteOf(symbol, response.body, now)
  {
    if apiKey == "" then None
    else match response
      case FetchFailed => None
      case Fetched(t) => Some(QuoteOf(symbol, t, now))
  }

  /** Before the session opens (only the previous day is known) the quote is
      flat at the previous close. */
  lemma QuoteBeforeOpenIsFlat(symbol: string, t: TickerSnapshot, now: int)
    requires t.day == NoOhlcv && t.lastTradePrice.None? && t.prevDay.c.Some?
    ensures var q := QuoteOf(symbol, t, now);
            q.open == q.high == q.low == q.price == q.close == t.prevDay.c.value
  {
  }

  /** A present zero is not replaced by a fallback: a day open of 0 is used
      even when the previous close is known. */
  lemma QuoteKeepsZeroOpen(symbol: string, t: TickerSnapshot, now: int)
    requires t.day.o == Some(0.0) && t.prevDay.c.Some?
    ensures QuoteOf(symbol, t, now).open == 0.0
  {
  }

  /** The fallbacks do not make the range bracket the price: a last trade
      above the day high is reported as is. */
  lemma QuoteRangeMayExcludePrice()
    ensures var t := TickerSnapshot("X", Ohlcv(Some(9.0), Some(10.0), Some(8.0), Some(9.5), None),
                                    Some(11.0), NoOhlcv, None, None);
            QuoteOf("X", t, 0).price > QuoteOf("X", t, 0).high
  {
  }

  /** The answer to the request for `symbol`; a symbol without an answer
      stands for a request that failed. */
  function ResponseFor(responses: map<string, Fetch<TickerSnapshot>>, symbol: string): Fetch<TickerSnapshot>
  {
    if symbol in responses then responses[symbol] else FetchFailed
  }

  /** The results of fetching a quote for every configured symbol at once:
      position `i` holds the outcome for `symbols[i]`. */
  function PollResults(apiKey: string, symbols: seq<string>, responses: map<string, Fetch<TickerSnapshot>>, now: int)
    : (r: seq<Option<Quote>>)
    ensures |r| == |symbols|
    ensures forall i :: 0 <= i < |symbols| ==>
              r[i] == FetchQuote(apiKey, symbols[i], ResponseFor(responses, symbols[i]), now)
    decreases |symbols|
  {
    if symbols == [] then []
    else
      var s := Last(symbols);
      var r := PollResults(apiKey, Init(symbols), responses, now)
        + [FetchQuote(apiKey, s, ResponseFor(responses, s), now)];
      assert forall i :: 0 <= i < |symbols| - 1 ==> symbols[i] == Init(symbols)[i];
      r
  }

  /** What `startPolygonFeed`'s poll hands on: the results without the
      nulls. Each published quote is the normalised snapshot answered for
      its own symbol, which is a configured one, under a set key. */
  function PolledQuotes(apiKey: string, symbols: seq<string>, responses: map<string, Fetch<TickerSnapshot>>, now: int)
    : (r: seq<Quote>)
    ensures |r| <= |symbols|
    ensures forall q :: q in r ==> q.symbol in symbols
    ensures forall q :: q in r ==>
              apiKey != "" && ResponseFor(responses, q.symbol).Fetched?
              && q == QuoteOf(q.symbol, ResponseFor(responses, q.symbol).body, now)
  {
    var results := PollResults(apiKey, symbols, responses, now);
    forall q | q in Somes(results)
      ensures q.symbol in symbols
      ensures apiKey != "" && ResponseFor(responses, q.symbol).Fetched?
              && q == QuoteOf(q.symbol, ResponseFor(responses, q.symbol).body, now)
    {
      var i :| 0 <= i < |results| && results[i] == Some(q);
      PollResultsSymbols(apiKey, symbols, responses, now, i);
    }
    Somes(results)
  }

  /** The quote at position `i` carries the symbol fetched at that position. */
  lemma PollResultsSymbols(apiKey: string, symbols: seq<string>, responses: map<string, Fetch<TickerSnapshot>>, now: int, i: nat)
    requires i < |symbols| && PollResults(apiKey, symbols, responses, now)[i].Some?
    ensures PollResults(apiKey, symbols, responses, now)[i].value.symbol == symbols[i]
  {
  }

  /** A configured symbol is published iff the key is set and its request
      was answered. */
  lemma PublishedIffAnswered(apiKey: string, symbols: seq<string>, responses: map<string, Fetch<TickerSnapshot>>, now: int, s: string)
    requires s in symbols
    ensures s in Map(PolledQuotes(apiKey, symbols, responses, now), QuoteSymbol)
            <==> apiKey != "" && ResponseFor(responses, s).Fetched?
  {
    var qs := PolledQuotes(apiKey, symbols, responses, now);
    var results := PollResults(apiKey, symbols, responses, now);
    if apiKey != "" && ResponseFor(responses, s).Fetched? {
      var i :| 0 <= i < |symbols| && symbols[i] == s;
      assert results[i].Some?;
      SomesComplete(results, results[i].value);
      var k :| 0 <= k < |qs| && qs[k] == results[i].value;
      assert Map(qs, QuoteSymbol)[k] == s;
    }
  }

  /** Without an API key nothing is published. */
  lemma PolledQuotesWithoutKey(symbols: seq<string>, responses: map<string, Fetch<TickerSnapshot>>, now: int)
    ensures PolledQuotes("", symbols, responses, now) == []
  {
    SomesOfNothing(PollResults("", symbols, responses, now));
  }

  /** The published quotes follow the configured symbol order. */
  lemma PolledQuotesOrder(apiKey: string, symbols: seq<string>, responses: map<string, Fetch<TickerSnapshot>>, now: int)
    ensures IsSubsequence(Map(PolledQuotes(apiKey, symbols, responses, now), QuoteSymbol), symbols)
  {
    var results := PollResults(apiKey, symbols, responses, now);
    forall i | 0 <= i < |results| && results[i].Some?
      ensures QuoteSymbol(results[i].value) == symbols[i]
    {
      PollResultsSymbols(apiKey, symbols, responses, now, i);
    }
    SomesKeysInOrder(results, symbols, QuoteSymbol);
  }

  /** With a key and every request answered, nothing is dropped. */
  lemma PolledQuotesComplete(apiKey: string, symbols: seq<string>, responses: map<string, Fetch<TickerSnapshot>>, now: int)
    requires apiKey != ""
    requires forall s :: s in symbols ==> s in responses && responses[s].Fetched?
    ensures |PolledQuotes(apiKey, symbols, responses, now)| == |symbols|
  {
    var results := PollResults(apiKey, symbols, responses, now);
    assert forall i :: 0 <= i < |symbols| ==> symbols[i] in symbols;
    SomesAllPresent(results);
  }

  // ---------------------------------------------------------------------
  // Indices
  // ---------------------------------------------------------------------

  /** The `session` object of an index result; absent means every field absent. */
  datatype IndexSession = IndexSession(
    open: Option<real>,
    high: Option<real>,
    low: Option<real>,
    close: Option<real>,
    previousClose: Option<real>,
    change: Option<real>,
    changePercent: Option<real>)

  /** One element of the indices snapshot's `results`; `error` says whether
      its `error` field is truthy. */
  datatype IndexResult = IndexResult(ticker: string, error: bool, value: Option<real>, session: IndexSession)

  const DEFAULT_INDEX_TICKERS: seq<string> := ["I:SPX", "I:NDX", "I:DJI", "I:RUT"]

  /** The display name of an index ticker. */
  function IndexDisplayName(ticker: string): (name: string)
    ensures ticker == "I:SPX" ==> name == "S&P 500"
    ensures ticker == "I:NDX" ==> name == "NASDAQ"
    ensures ticker == "I:DJI" ==> name == "Dow Jones"
    ensures ticker == "I:RUT" ==> name == "Russell 2000"
    ensures ticker !in DEFAULT_INDEX_TICKERS ==> name == ticker
    ensures name == ticker <==> ticker !in DEFAULT_INDEX_TICKERS
  {
    var names := map["I:SPX" := "S&P 500", "I:NDX" := "NASDAQ", "I:DJI" := "Dow Jones", "I:RUT" := "Russell 2000"];
    if ticker in names then names[ticker] else ticker
  }

  function HasNoError(r: IndexResult): bool { !r.error }

  function ResultTicker(r: IndexResult): string { r.ticker }

  /** The error-free results keyed by ticker, later entries replacing
      earlier ones; `ByTickerKeys` says which tickers are keys. */
  function ByTicker(results: seq<IndexResult>): (bt: map<string, IndexResult>)
  {
    Upsert(map[], Filter(results, HasNoError), ResultTicker)
  }

  /** A ticker is indexed iff some result for it came back without error. */
  lemma ByTickerKeys(results: seq<IndexResult>, t: string)
    ensures t in ByTicker(results) <==> exists i :: 0 <= i < |results| && results[i].ticker == t && !results[i].error
  {
    var kept := Filter(results, HasNoError);
    forall i | 0 <= i < |results| && !results[i].error ensures results[i] in kept {
      FilterComplete(results, HasNoError, results[i]);
    }
  }

  /** A result is indexed iff it carries no error; among error-free results
      for one ticker the last is used. */
  lemma {:induction false} ByTickerLastWins(results: seq<IndexResult>, i: nat)
    requires i < |results| && !results[i].error
    requires forall j :: i < j < |results| && !results[j].error ==> results[j].ticker != results[i].ticker
    ensures results[i].ticker in ByTicker(results)
    ensures ByTicker(results)[results[i].ticker] == results[i]
    decreases |results|
  {
    var init := Init(results);
    var x := Last(results);
    assert Filter(results, HasNoError) == Filter(init, HasNoError) + (if HasNoError(x) then [x] else []);
    if i == |results| - 1 {
      UpsertSnoc(map[], Filter(init, HasNoError), x, ResultTicker);
    } else {
      assert init[i] == results[i];
      forall j | i < j < |init| && !init[j].error ensures init[j].ticker != init[i].ticker {
        assert init[j] == results[j];
      }
      ByTickerLastWins(init, i);
      if HasNoError(x) {
        UpsertSnoc(map[], Filter(init, HasNoError), x, ResultTicker);
        assert x == results[|results| - 1];
      } else {
        assert Filter(results, HasNoError) == Filter(init, HasNoError);
      }
    }
  }

  /** Every indexed entry is an error-free result filed under its own ticker. */
  lemma ByTickerEntries(results: seq<IndexResult>, t: string)
    requires t in ByTicker(results)
    ensures ByTicker(results)[t].ticker == t && !ByTicker(results)[t].error
    ensures ByTicker(results)[t] in results
  {
    var kept := Filter(results, HasNoError);
    UpsertEntryOrigin(map[], kept, ResultTicker, t);
    var j :| 0 <= j < |kept| && ResultTicker(kept[j]) == t && ByTicker(results)[t] == kept[j];
    assert kept[j] in kept;
  }

  /** The index quote built for one ticker and its result. */
  function IndexQuoteOf(ticker: string, r: IndexResult, now: int): (q: IndexQuote)
    ensures q.symbol == ticker && q.name == IndexDisplayName(ticker) && q.timestamp == now
    ensures q.price == q.close
    ensures r.value.Some? ==> q.price == r.value.value
    ensures r.value.None? && r.session.close.Some? ==> q.price == r.session.close.value
    ensures r.value.None? && r.session.close.None? ==> q.price == r.session.previousClose.GetOr(0.0)
    ensures r.session.open.Some? ==> q.open == r.session.open.value
    ensures r.session.open.None? ==> q.open == r.session.previousClose.GetOr(q.price)
    ensures q.high == r.session.high.GetOr(q.price) && q.low == r.session.low.GetOr(q.price)
    ensures r.session.change.Some? ==> q.change == r.session.change.value
    ensures r.session.change.None? ==> q.change == q.price - q.open
    ensures r.session.changePercent.Some? ==> q.changePercent == r.session.changePercent.value
    ensures r.session.changePercent.None? && q.open != 0.0 ==> q.changePercent * q.open == (q.price - q.open) * 100.0
    ensures r.session.changePercent.None? && q.open == 0.0 ==> q.changePercent == 0.0
  {
    var session := r.session;
    var value := r.value.GetOr(session.close.GetOr(session.previousClose.GetOr(0.0)));
    var open := session.open.GetOr(session.previousClose.GetOr(value));
    IndexQuote(
      ticker, IndexDisplayName(ticker), value, open,
      session.high.GetOr(value), session.low.GetOr(value), value,
      session.change.GetOr(value - open),
      session.changePercent.GetOr(if open != 0.0 then (value - open) / open * 100.0 else 0.0),
      now)
  }

  /** The `out` list for `tickers`: one quote per ticker that has a result. */
  function IndexQuotesFor(tickers: seq<string>, byTicker: map<string, IndexResult>, now: int): (out: seq<IndexQuote>)
    ensures |out| <= |tickers|
    decreases |tickers|
  {
    if tickers == [] then []
    else
      var t := Last(tickers);
      IndexQuotesFor(Init(tickers), byTicker, now)
        + (if t in byTicker then [IndexQuoteOf(t, byTicker[t], now)] else [])
  }

  function KnownTo(byTicker: map<string, IndexResult>): string -> bool
  {
    t => t in byTicker
  }

  /** The output lists exactly the requested tickers that have a result, in
      request order, each built from its own ticker's result. */
  lemma {:induction false} IndexQuotesForShape(tickers: seq<string>, byTicker: map<string, IndexResult>, now: int)
    ensures Map(IndexQuotesFor(tickers, byTicker, now), IndexQuoteSymbol) == Filter(tickers, KnownTo(byTicker))
    ensures forall q :: q in IndexQuotesFor(tickers, byTicker, now) ==>
              q.symbol in byTicker && q == IndexQuoteOf(q.symbol, byTicker[q.symbol], now)
    decreases |tickers|
  {
    if tickers != [] {
      var t := Last(tickers);
      var before := IndexQuotesFor(Init(tickers), byTicker, now);
      IndexQuotesForShape(Init(tickers), byTicker, now);
      if t in byTicker {
        var out := before + [IndexQuoteOf(t, byTicker[t], now)];
        assert Init(out) == before && Last(out) == IndexQuoteOf(t, byTicker[t], now);
        MapSnoc(before, IndexQuoteOf(t, byTicker[t], now), IndexQuoteSymbol);
      } else {
        assert IndexQuotesFor(tickers, byTicker, now) == before;
      }
    }
  }

  /** `fetchIndices`: an empty list without a key or when the request
      fails; otherwise the loop over the requested tickers. */
  method FetchIndices(apiKey: string, tickers: seq<string>, response: Fetch<Option<seq<IndexResult>>>, now: int)
    returns (out: seq<IndexQuote>)
    ensures apiKey == "" || response.FetchFailed? ==> out == []
    ensures apiKey != "" && response.Fetched? ==> out == IndexQuotesFor(tickers, ByTicker(response.body.GetOr([])), now)
    ensures IsSubsequence(Map(out, IndexQuoteSymbol), tickers)
    ensures forall q :: q in out ==> q.symbol in tickers && q.name == IndexDisplayName(q.symbol)
  {
    out := [];
    if apiKey == "" || response.FetchFailed? {
      return;
    }
    var byTicker := ByTicker(response.body.GetOr([]));
    for i := 0 to |tickers|
      invariant out == IndexQuotesFor(tickers[..i], byTicker, now)
    {
      assert Init(tickers[..i + 1]) == tickers[..i] && Last(tickers[..i + 1]) == tickers[i];
      var ticker := tickers[i];
      if ticker in byTicker {
        out := out + [IndexQuoteOf(ticker, byTicker[ticker], now)];
      }
    }
    assert tickers[..|tickers|] == tickers;
    IndexQuotesForShape(tickers, byTicker, now);
    FilterIsSubsequence(tickers, KnownTo(byTicker));
    forall q | q in out ensures q.symbol in tickers {
      var k :| 0 <= k < |out| && out[k] == q;
      assert Map(out, IndexQuoteSymbol)[k] == q.symbol;
    }
  }

  /** A requested ticker is listed iff some result for it came back without error. */
  lemma IndexListedIff(tickers: seq<string>, results: seq<IndexResult>, now: int, t: string)
    requires t in tickers
    ensures t in Map(IndexQuotesFor(tickers, ByTicker(results), now), IndexQuoteSymbol)
            <==> exists i :: 0 <= i < |results| && results[i].ticker == t && !results[i].error
  {
    var bt := ByTicker(results);
    ByTickerKeys(results, t);
    IndexQuotesForShape(tickers, bt, now);
    if t in bt {
      FilterComplete(tickers, KnownTo(bt), t);
    }
  }

  /** One poll of `startPolygonIndexFeed`: the default index tickers, in
      order, each listed iff its result came back without error. */
  method PollIndices(apiKey: string, response: Fetch<Option<seq<IndexResult>>>, now: int)
    returns (out: seq<IndexQuote>)
    ensures apiKey == "" || response.FetchFailed? ==> out == []
    ensures apiKey != "" && response.Fetched? ==>
              out == IndexQuotesFor(DEFAULT_INDEX_TICKERS, ByTicker(response.body.GetOr([])), now)
    ensures IsSubsequence(Map(out, IndexQuoteSymbol), DEFAULT_INDEX_TICKERS)
    ensures forall q :: q in out ==> q.symbol in DEFAULT_INDEX_TICKERS && q.name != q.symbol
  {
    out := FetchIndices(apiKey, DEFAULT_INDEX_TICKERS, response, now);
  }
}
