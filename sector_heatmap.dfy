/** The sector rollup: ticker snapshots become sector quotes, the quotes
    are keyed by symbol, and a fixed table of sectors is summarised into
    per-sector counts and averages plus market-wide breadth. */
module SectorHeatmap {
  import opened Wrappers
  import opened Seqs
  import opened MarketData

  /** A configured sector: identifier, display name and its constituents in display order. */
  datatype Sector = Sector(id: string, name: string, symbols: seq<string>)

  const TOP_SECTORS: seq<Sector> := [
    Sector("energy", "Energy", ["XOM", "CVX", "COP", "SLB", "EOG", "HAL"]),
    Sector("semis", "Semiconductors", ["NVDA", "AMD", "AVGO", "MU", "LRCX", "KLAC"]),
    Sector("technology", "Technology", ["MSFT", "AAPL", "CSCO", "CRM", "ADBE", "ORCL"]),
    Sector("consumer-defensive", "Consumer Defensive", ["PG", "COST", "WMT", "KO", "PEP", "MO"]),
    Sector("financial", "Financial", ["JPM", "BAC", "WFC", "MS", "GS", "SCHW"]),
    Sector("utilities-re", "Utilities & RE", ["NEE", "DUK", "SO", "PLD", "AMT", "SPG"]),
    Sector("industrials", "Industrials", ["CAT", "DE", "BA", "HON", "UPS", "GE"]),
    Sector("communication", "Communication", ["META", "GOOGL", "NFLX", "TMUS", "T", "VZ"]),
    Sector("consumer-cyclical", "Consumer Cyclical", ["AMZN", "TSLA", "HD", "MCD", "SBUX", "TJX"]),
    Sector("healthcare", "Healthcare", ["LLY", "JNJ", "UNH", "MRK", "TMO", "PFE"])
  ]

  /** The number of sector members shown per sector. */
  const MEMBERS_SHOWN: nat := 3

  /** The quote record the rollup works on. */
  datatype SectorQuote = SectorQuote(symbol: string, price: real, change: real, changePercent: real)

  datatype SectorSummary = SectorSummary(
    id: string,
    name: string,
    performance: real,
    advancing: nat,
    declining: nat,
    unchangedCount: int,   // `unchanged` (a Dafny keyword)
    total: nat,
    members: seq<SectorQuote>)

  datatype Breadth = Breadth(advancing: nat, declining: nat, total: nat, averagePerformance: real)

  datatype HeatmapPayload = HeatmapPayload(sectors: seq<SectorSummary>, breadth: Option<Breadth>)

  // ---------------------------------------------------------------------
  // Snapshot to quote
  // ---------------------------------------------------------------------

  /** The previous day's close, or 0 when absent. */
  function PrevCloseOf(s: TickerSnapshot): real
  {
    s.prevDay.c.GetOr(0.0)
  }

  /** The day close, else the last trade price, else the previous close. */
  function PriceOf(s: TickerSnapshot): real
  {
    s.day.c.GetOr(s.lastTradePrice.GetOr(PrevCloseOf(s)))
  }

  /** `asQuote`: a snapshot becomes a quote unless its price or previous
      close is zero (which includes absent, since both default to 0). */
  function AsQuote(s: TickerSnapshot): (r: Option<SectorQuote>)
    ensures r.None? <==> PriceOf(s) == 0.0 || PrevCloseOf(s) == 0.0
    ensures r.Some? ==> r.value.symbol == s.ticker && r.value.price == PriceOf(s)
    ensures r.Some? && s.todaysChange.Some? ==> r.value.change == s.todaysChange.value
    ensures r.Some? && s.todaysChange.None? ==> r.value.change == r.value.price - PrevCloseOf(s)
    ensures r.Some? && s.todaysChangePerc.Some? ==> r.value.changePercent == s.todaysChangePerc.value
    ensures r.Some? && s.todaysChangePerc.None? ==>
              r.value.changePercent * PrevCloseOf(s) == (r.value.price - PrevCloseOf(s)) * 100.0
  {
    var prevClose := PrevCloseOf(s);
    var price := PriceOf(s);
    if price == 0.0 || prevClose == 0.0 then None
    else
      var change := s.todaysChange.GetOr(price - prevClose);
      var changePercent := s.todaysChangePerc.GetOr(
        if prevClose != 0.0 then (price - prevClose) / prevClose * 100.0 else 0.0);
      Some(SectorQuote(s.ticker, price, change, changePercent))
  }

  /** Where the price comes from: the day close when present (even 0),
      else the last trade, else the previous close. */
  lemma AsQuotePriceSource(s: TickerSnapshot)
    requires AsQuote(s).Some?
    ensures s.day.c.Some? ==> AsQuote(s).value.price == s.day.c.value
    ensures s.day.c.None? && s.lastTradePrice.Some? ==> AsQuote(s).value.price == s.lastTradePrice.value
    ensures s.day.c.None? && s.lastTradePrice.None? ==> AsQuote(s).value.price == s.prevDay.c.value
  {
  }

  /** A snapshot with neither a day close nor a last trade is priced at its
      previous close, so without upstream change fields it reads as flat. */
  lemma AsQuoteFallsBackToFlat(s: TickerSnapshot)
    requires s.day.c.None? && s.lastTradePrice.None? && s.todaysChange.None? && s.todaysChangePerc.None?
    requires s.prevDay.c.Some? && s.prevDay.c.value != 0.0
    ensures AsQuote(s) == Some(SectorQuote(s.ticker, s.prevDay.c.value, 0.0, 0.0))
  {
  }

  /** The nullish fallback keeps a zero: a day close of 0 hides a valid last trade, and the
      zero price then rejects the snapshot. */
  lemma ZeroDayCloseRejects(s: TickerSnapshot)
    requires s.day.c == Some(0.0)
    ensures AsQuote(s).None?
  {
  }

  // ---------------------------------------------------------------------
  // Quotes keyed by symbol
  // ---------------------------------------------------------------------

  /** The dictionary `bySymbol` after the loop has seen `ts`: every key maps
      to a quote of that symbol, and the keys are the tickers of the
      snapshots that parse. */
  function BySymbolOf(ts: seq<TickerSnapshot>): (m: map<string, SectorQuote>)
    ensures forall k :: k in m ==> m[k].symbol == k
    ensures forall k :: k in m <==> exists i :: 0 <= i < |ts| && AsQuote(ts[i]).Some? && ts[i].ticker == k
    decreases |ts|
  {
    if ts == [] then map[]
    else
      var m := BySymbolOf(Init(ts));
      assert forall i :: 0 <= i < |ts| - 1 ==> ts[i] == Init(ts)[i];
      assert Last(ts) == ts[|ts| - 1];
      match AsQuote(Last(ts))
      case Some(q) => m[q.symbol := q]
      case None => m
  }

  /** Every entry is a parsed, non-null quote filed under its own symbol. */
  lemma {:induction false} BySymbolEntriesParsed(ts: seq<TickerSnapshot>, k: string)
    requires k in BySymbolOf(ts)
    ensures BySymbolOf(ts)[k].symbol == k
    ensures exists i :: 0 <= i < |ts| && AsQuote(ts[i]) == Some(BySymbolOf(ts)[k])
    decreases |ts|
  {
    var init := Init(ts);
    match AsQuote(Last(ts))
    case Some(q) =>
      if q.symbol != k {
        BySymbolEntriesParsed(init, k);
        var i :| 0 <= i < |init| && AsQuote(init[i]) == Some(BySymbolOf(init)[k]);
        assert ts[i] == init[i];
      } else {
        assert ts[|ts| - 1] == Last(ts);
      }
    case None =>
      BySymbolEntriesParsed(init, k);
      var i :| 0 <= i < |init| && AsQuote(init[i]) == Some(BySymbolOf(init)[k]);
      assert ts[i] == init[i];
  }

  /** A snapshot that parses is filed, and the last one for a symbol wins. */
  lemma {:induction false} BySymbolLastWins(ts: seq<TickerSnapshot>, i: nat)
    requires i < |ts| && AsQuote(ts[i]).Some?
    requires forall j :: i < j < |ts| && AsQuote(ts[j]).Some? ==> ts[j].ticker != ts[i].ticker
    ensures ts[i].ticker in BySymbolOf(ts)
    ensures BySymbolOf(ts)[ts[i].ticker] == AsQuote(ts[i]).value
    decreases |ts|
  {
    if i < |ts| - 1 {
      var init := Init(ts);
      assert init[i] == ts[i];
      forall j | i < j < |init| && AsQuote(init[j]).Some?
        ensures init[j].ticker != init[i].ticker
      {
        assert init[j] == ts[j];
      }
      BySymbolLastWins(init, i);
    }
  }

  /** `fetchAllSectorQuotes` after the request: no key or a failed request
      gives null; otherwise every snapshot in `tickers` (none when the field
      is not an array) is parsed and filed under its symbol. */
  method FetchAllSectorQuotes(apiKey: string, response: Fetch<Option<seq<TickerSnapshot>>>)
    returns (r: Option<map<string, SectorQuote>>)
    ensures apiKey == "" || response.FetchFailed? ==> r.None?
    ensures apiKey != "" && response.Fetched? ==> r == Some(BySymbolOf(response.body.GetOr([])))
  {
    if apiKey == "" || response.FetchFailed? {
      return None;
    }
    var tickers := response.body.GetOr([]);
    var bySymbol: map<string, SectorQuote> := map[];
    for i := 0 to |tickers|
      invariant bySymbol == BySymbolOf(tickers[..i])
    {
      assert Init(tickers[..i + 1]) == tickers[..i] && Last(tickers[..i + 1]) == tickers[i];
      var parsed := AsQuote(tickers[i]);
      if parsed.Some? {
        bySymbol := bySymbol[parsed.value.symbol := parsed.value];
      }
    }
    assert tickers[..|tickers|] == tickers;
    r := Some(bySymbol);
  }

  /** The symbols of every sector, concatenated in table order. */
  function ConcatSymbols(sectors: seq<Sector>): (r: seq<string>)
    ensures forall x :: x in r ==> exists i :: 0 <= i < |sectors| && x in sectors[i].symbols
    ensures forall i, x :: 0 <= i < |sectors| && x in sectors[i].symbols ==> x in r
    decreases |sectors|
  {
    if sectors == [] then []
    else
      var r := ConcatSymbols(Init(sectors)) + Last(sectors).symbols;
      assert forall i :: 0 <= i < |sectors| - 1 ==> sectors[i] == Init(sectors)[i];
      r
  }

  /** The request list: the configured symbols of all sectors, each once,
      in order of first appearance. */
  function RequestedSymbols(sectors: seq<Sector>): (r: seq<string>)
    ensures forall x :: x in r ==> exists i :: 0 <= i < |sectors| && x in sectors[i].symbols
    ensures forall i, x :: 0 <= i < |sectors| && x in sectors[i].symbols ==> x in r
    ensures NoDuplicates(r)
  {
    Dedup(ConcatSymbols(sectors))
  }

  // ---------------------------------------------------------------------
  // Per-sector summary
  // ---------------------------------------------------------------------

  /** The quotes of the constituents that have one, in constituent order;
      a constituent without a quote is dropped. */
  function KnownMembers(symbols: seq<string>, bySymbol: map<string, SectorQuote>): (ms: seq<SectorQuote>)
    ensures |ms| <= |symbols|
    ensures (forall i :: 0 <= i < |symbols| ==> symbols[i] in bySymbol) ==> |ms| == |symbols|
    ensures forall q :: q in ms ==> exists i :: 0 <= i < |symbols| && symbols[i] in bySymbol && bySymbol[symbols[i]] == q
    decreases |symbols|
  {
    if symbols == [] then []
    else
      assert forall i :: 0 <= i < |symbols| - 1 ==> symbols[i] == Init(symbols)[i];
      assert Last(symbols) == symbols[|symbols| - 1];
      KnownMembers(Init(symbols), bySymbol)
        + (if Last(symbols) in bySymbol then [bySymbol[Last(symbols)]] else [])
  }

  /** KnownMembers distributes over concatenation of the symbol list. */
  lemma {:induction false} KnownMembersAppend(s1: seq<string>, s2: seq<string>, m: map<string, SectorQuote>)
    ensures KnownMembers(s1 + s2, m) == KnownMembers(s1, m) + KnownMembers(s2, m)
    decreases |s2|
  {
    if s2 != [] {
      assert Init(s1 + s2) == s1 + Init(s2);
      assert Last(s1 + s2) == Last(s2);
      KnownMembersAppend(s1, Init(s2), m);
    } else {
      assert s1 + s2 == s1;
    }
  }

  /** The quoted symbols of a list grown by one symbol are those of the
      list, plus that symbol when it has a quote. */
  lemma QuotedSnoc(init: seq<string>, x: string, m: map<string, SectorQuote>)
    ensures (set s | s in init + [x] && s in m) == (set s | s in init && s in m) + (if x in m then {x} else {})
  {
  }

  /** With distinct constituents, the number of known members is the number
      of constituents that have a quote. */
  lemma {:induction false} KnownMembersCount(symbols: seq<string>, m: map<string, SectorQuote>)
    requires NoDuplicates(symbols)
    ensures |KnownMembers(symbols, m)| == |set s | s in symbols && s in m|
    decreases |symbols|
  {
    if symbols == [] {
      assert (set s | s in symbols && s in m) == {};
    } else {
      var init, x := Init(symbols), Last(symbols);
      assert symbols == init + [x];
      assert NoDuplicates(init) by {
        forall i, j | 0 <= i < j < |init| ensures init[i] != init[j] {
          assert init[i] == symbols[i] && init[j] == symbols[j];
        }
      }
      assert x !in init by {
        forall i | 0 <= i < |init| ensures init[i] != x {
          assert init[i] == symbols[i];
        }
      }
      KnownMembersCount(init, m);
      QuotedSnoc(init, x, m);
    }
  }

  /** Shown members follow configured order: when the first three
      constituents all have quotes, they are the members shown. */
  lemma MembersFollowConfiguredOrder(sector: Sector, m: map<string, SectorQuote>)
    requires |sector.symbols| >= 3
    requires sector.symbols[0] in m && sector.symbols[1] in m && sector.symbols[2] in m
    ensures Summarize(sector, m).members
            == [m[sector.symbols[0]], m[sector.symbols[1]], m[sector.symbols[2]]]
  {
    var s := sector.symbols;
    assert s == s[..3] + s[3..];
    KnownMembersAppend(s[..3], s[3..], m);
    assert Init(s[..3]) == s[..2] && Init(s[..2]) == s[..1] && Init(s[..1]) == [];
    assert KnownMembers(s[..1], m) == [m[s[0]]];
    assert KnownMembers(s[..2], m) == [m[s[0]], m[s[1]]];
    assert KnownMembers(s[..3], m) == [m[s[0]], m[s[1]], m[s[2]]];
  }

  function CountAdvancing(ms: seq<SectorQuote>): nat
    decreases |ms|
  {
    if ms == [] then 0 else CountAdvancing(Init(ms)) + (if Last(ms).changePercent > 0.0 then 1 else 0)
  }

  function CountDeclining(ms: seq<SectorQuote>): nat
    decreases |ms|
  {
    if ms == [] then 0 else CountDeclining(Init(ms)) + (if Last(ms).changePercent < 0.0 then 1 else 0)
  }

  /** The number of members whose change percent is exactly zero. */
  function CountFlat(ms: seq<SectorQuote>): nat
    decreases |ms|
  {
    if ms == [] then 0 else CountFlat(Init(ms)) + (if Last(ms).changePercent == 0.0 then 1 else 0)
  }

  function SumChangePercent(ms: seq<SectorQuote>): real
    decreases |ms|
  {
    if ms == [] then 0.0 else SumChangePercent(Init(ms)) + Last(ms).changePercent
  }

  /** Advancing, declining and flat members partition the members. */
  lemma {:induction false} SignPartition(ms: seq<SectorQuote>)
    ensures CountAdvancing(ms) + CountDeclining(ms) + CountFlat(ms) == |ms|
    decreases |ms|
  {
    if ms != [] {
      SignPartition(Init(ms));
    }
  }

  function Max(a: int, b: int): int { if a >= b then a else b }

  /** The mean of `n` values summing to `sum`, or 0 for none. */
  function Mean(sum: real, n: nat): (r: real)
    ensures n > 0 ==> r * (n as real) == sum
    ensures n == 0 ==> r == 0.0
  {
    if n > 0 then sum / (n as real) else 0.0
  }

  function Min(a: int, b: int): int { if a <= b then a else b }

  /** The summary of a sector with the given known members, as the
      `TOP_SECTORS.map` callback builds it. */
  function SummaryOf(sector: Sector, members: seq<SectorQuote>): (s: SectorSummary)
    ensures s.id == sector.id && s.name == sector.name && s.total == |members|
    ensures s.advancing == CountAdvancing(members) && s.declining == CountDeclining(members)
    ensures s.advancing + s.declining + s.unchangedCount == s.total
    ensures s.unchangedCount == CountFlat(members)
    ensures |s.members| == Min(MEMBERS_SHOWN, s.total) && s.members == members[..|s.members|]
    ensures s.total > 0 ==> s.performance * (s.total as real) == SumChangePercent(members)
    ensures s.total == 0 ==> s.performance == 0.0
  {
    var advancing := CountAdvancing(members);
    var declining := CountDeclining(members);
    SignPartition(members);
    var flat := Max(0, |members| - advancing - declining);
    var avgPerf := Mean(SumChangePercent(members), |members|);
    SectorSummary(sector.id, sector.name, avgPerf, advancing, declining, flat,
                  |members|, members[..Min(MEMBERS_SHOWN, |members|)])
  }

  /** The summary of a configured sector over the quotes keyed by symbol:
      it counts no more members than the sector has constituents, and all
      of them when every constituent is quoted. */
  function Summarize(sector: Sector, bySymbol: map<string, SectorQuote>): (s: SectorSummary)
    ensures s.id == sector.id && s.name == sector.name
    ensures s.total <= |sector.symbols|
    ensures (forall i :: 0 <= i < |sector.symbols| ==> sector.symbols[i] in bySymbol) ==> s.total == |sector.symbols|
  {
    SummaryOf(sector, KnownMembers(sector.symbols, bySymbol))
  }

  /** Every member shown is the quote of one of the sector's constituents. */
  lemma ShownMembersAreQuoted(sector: Sector, bySymbol: map<string, SectorQuote>, q: SectorQuote)
    requires q in Summarize(sector, bySymbol).members
    ensures exists i :: 0 <= i < |sector.symbols| && sector.symbols[i] in bySymbol && bySymbol[sector.symbols[i]] == q
  {
    var members := KnownMembers(sector.symbols, bySymbol);
    var shown := Summarize(sector, bySymbol).members;
    var k :| 0 <= k < |shown| && shown[k] == q;
    assert members[k] == q && q in members;
  }

  // ---------------------------------------------------------------------
  // Breadth
  // ---------------------------------------------------------------------

  function SumAdvancing(ss: seq<SectorSummary>): nat
    decreases |ss|
  {
    if ss == [] then 0 else SumAdvancing(Init(ss)) + Last(ss).advancing
  }

  function SumDeclining(ss: seq<SectorSummary>): nat
    decreases |ss|
  {
    if ss == [] then 0 else SumDeclining(Init(ss)) + Last(ss).declining
  }

  function SumTotal(ss: seq<SectorSummary>): nat
    decreases |ss|
  {
    if ss == [] then 0 else SumTotal(Init(ss)) + Last(ss).total
  }

  /** The number of sectors with at least one known member. */
  function NonEmptyCount(ss: seq<SectorSummary>): nat
    decreases |ss|
  {
    if ss == [] then 0 else NonEmptyCount(Init(ss)) + (if Last(ss).total > 0 then 1 else 0)
  }

  /** The sum of the performances of the sectors with at least one known member. */
  function NonEmptyPerformance(ss: seq<SectorSummary>): real
    decreases |ss|
  {
    if ss == [] then 0.0 else NonEmptyPerformance(Init(ss)) + (if Last(ss).total > 0 then Last(ss).performance else 0.0)
  }

  /** The summary of each sector of a table, in table order. */
  function Summaries(table: seq<Sector>, bySymbol: map<string, SectorQuote>): (ss: seq<SectorSummary>)
    ensures |ss| == |table|
    ensures forall i :: 0 <= i < |table| ==> ss[i] == Summarize(table[i], bySymbol)
  {
    seq(|table|, i requires 0 <= i < |table| => Summarize(table[i], bySymbol))
  }

  /** Accumulators equal to the breadth sums give the breadth. */
  lemma BreadthFromTotals(ss: seq<SectorSummary>, advancing: nat, declining: nat, total: nat, perfSum: real, perfCount: nat)
    requires advancing == SumAdvancing(ss) && declining == SumDeclining(ss) && total == SumTotal(ss)
    requires perfSum == NonEmptyPerformance(ss) && perfCount == NonEmptyCount(ss)
    ensures Breadth(advancing, declining, total, Mean(perfSum, perfCount)) == BreadthOf(ss)
  {
  }

  /** Summarising one more sector of the table appends its summary. */
  lemma SummariesSnoc(table: seq<Sector>, bySymbol: map<string, SectorQuote>, i: nat)
    requires i < |table|
    ensures Summaries(table[..i + 1], bySymbol) == Summaries(table[..i], bySymbol) + [Summarize(table[i], bySymbol)]
  {
    var before, after := Summaries(table[..i], bySymbol), Summaries(table[..i + 1], bySymbol);
    assert forall k :: 0 <= k < i ==> after[k] == before[k];
  }

  /** Each breadth sum over one more summary adds that summary's share. */
  lemma SumsSnoc(ss: seq<SectorSummary>, s: SectorSummary)
    ensures SumAdvancing(ss + [s]) == SumAdvancing(ss) + s.advancing
    ensures SumDeclining(ss + [s]) == SumDeclining(ss) + s.declining
    ensures SumTotal(ss + [s]) == SumTotal(ss) + s.total
    ensures NonEmptyCount(ss + [s]) == NonEmptyCount(ss) + (if s.total > 0 then 1 else 0)
    ensures NonEmptyPerformance(ss + [s]) == NonEmptyPerformance(ss) + (if s.total > 0 then s.performance else 0.0)
  {
    assert Init(ss + [s]) == ss && Last(ss + [s]) == s;
  }

  /** The market-wide breadth of a list of sector summaries. */
  function BreadthOf(ss: seq<SectorSummary>): (b: Breadth)
    ensures b.advancing == SumAdvancing(ss) && b.declining == SumDeclining(ss) && b.total == SumTotal(ss)
    ensures NonEmptyCount(ss) > 0 ==> b.averagePerformance * (NonEmptyCount(ss) as real) == NonEmptyPerformance(ss)
    ensures NonEmptyCount(ss) == 0 ==> b.averagePerformance == 0.0
  {
    Breadth(SumAdvancing(ss), SumDeclining(ss), SumTotal(ss), Mean(NonEmptyPerformance(ss), NonEmptyCount(ss)))
  }

  /** The sector callback of `buildHeatmapPayload` over a sector table: it
      summarises each sector in table order and adds the summary's counts
      and performance to the five running totals. */
  method TallySectors(table: seq<Sector>, m: map<string, SectorQuote>)
    returns (sectors: seq<SectorSummary>, totalAdvancing: nat, totalDeclining: nat, totalCount: nat,
             perfSum: real, perfCount: nat)
    ensures sectors == Summaries(table, m)
    ensures totalAdvancing == SumAdvancing(sectors) && totalDeclining == SumDeclining(sectors)
    ensures totalCount == SumTotal(sectors)
    ensures perfSum == NonEmptyPerformance(sectors) && perfCount == NonEmptyCount(sectors)
  {
    totalAdvancing, totalDeclining, totalCount := 0, 0, 0;
    perfSum, perfCount := 0.0, 0;
    sectors := [];
    for i := 0 to |table|
      invariant sectors == Summaries(table[..i], m)
      invariant totalAdvancing == SumAdvancing(sectors)
      invariant totalDeclining == SumDeclining(sectors)
      invariant totalCount == SumTotal(sectors)
      invariant perfSum == NonEmptyPerformance(sectors)
      invariant perfCount == NonEmptyCount(sectors)
    {
      var s := Summarize(table[i], m);
      totalAdvancing := totalAdvancing + s.advancing;
      totalDeclining := totalDeclining + s.declining;
      totalCount := totalCount + s.total;
      if s.total > 0 {
        perfSum := perfSum + s.performance;
        perfCount := perfCount + 1;
      }
      SumsSnoc(sectors, s);
      SummariesSnoc(table, m, i);
      sectors := sectors + [s];
    }
    assert table[..|table|] == table;
  }

  /** `buildHeatmapPayload` over a given sector table: null gives an empty
      payload; otherwise one summary per sector, in table order, and the
      breadth object built from the running totals, which equals the
      breadth of those summaries. */
  method BuildHeatmapPayloadFor(table: seq<Sector>, bySymbol: Option<map<string, SectorQuote>>)
    returns (p: HeatmapPayload)
    ensures bySymbol.None? ==> p == HeatmapPayload([], None)
    ensures bySymbol.Some? ==> |p.sectors| == |table|
    ensures bySymbol.Some? ==> forall i :: 0 <= i < |p.sectors| ==> p.sectors[i] == Summarize(table[i], bySymbol.value)
    ensures bySymbol.Some? ==> p.breadth == Some(BreadthOf(p.sectors))
  {
    if bySymbol.None? {
      return HeatmapPayload([], None);
    }
    var sectors, totalAdvancing, totalDeclining, totalCount, perfSum, perfCount := TallySectors(table, bySymbol.value);
    BreadthFromTotals(sectors, totalAdvancing, totalDeclining, totalCount, perfSum, perfCount);
    var breadth := Breadth(totalAdvancing, totalDeclining, totalCount, Mean(perfSum, perfCount));
    p := HeatmapPayload(sectors, Some(breadth));
  }

  /** `buildHeatmapPayload` over `TOP_SECTORS`. */
  method BuildHeatmapPayload(bySymbol: Option<map<string, SectorQuote>>) returns (p: HeatmapPayload)
    ensures bySymbol.None? ==> p == HeatmapPayload([], None)
    ensures bySymbol.Some? ==> |p.sectors| == |TOP_SECTORS|
    ensures bySymbol.Some? ==> forall i :: 0 <= i < |p.sectors| ==> p.sectors[i] == Summarize(TOP_SECTORS[i], bySymbol.value)
    ensures bySymbol.Some? ==> p.breadth == Some(BreadthOf(p.sectors))
  {
    p := BuildHeatmapPayloadFor(TOP_SECTORS, bySymbol);
  }

  /** Market-wide counts stay consistent: advancing plus declining never
      exceed the total, and the total never exceeds the configured symbols. */
  lemma {:induction false} BreadthCountsConsistent(ss: seq<SectorSummary>, sectors: seq<Sector>, m: map<string, SectorQuote>)
    requires |ss| == |sectors|
    requires forall i :: 0 <= i < |ss| ==> ss[i] == Summarize(sectors[i], m)
    ensures BreadthOf(ss).advancing + BreadthOf(ss).declining <= BreadthOf(ss).total
    ensures BreadthOf(ss).total <= |ConcatSymbols(sectors)|
    decreases |ss|
  {
    if ss != [] {
      var ss', sectors' := Init(ss), Init(sectors);
      forall i | 0 <= i < |ss'| ensures ss'[i] == Summarize(sectors'[i], m) {
        assert ss'[i] == ss[i] && sectors'[i] == sectors[i];
      }
      BreadthCountsConsistent(ss', sectors', m);
      assert Last(ss) == ss[|ss| - 1];
    }
  }

  /** Sectors without known members stay out of the average: performances
      +1 and +3 and one empty sector average to 2, not 4/3. */
  lemma BreadthSkipsEmptySectors()
    ensures BreadthOf([
      SectorSummary("a", "A", 1.0, 1, 0, 0, 1, []),
      SectorSummary("b", "B", 3.0, 2, 0, 0, 2, []),
      SectorSummary("c", "C", 0.0, 0, 0, 0, 0, [])]).averagePerformance == 2.0
  {
    var ss := [
      SectorSummary("a", "A", 1.0, 1, 0, 0, 1, []),
      SectorSummary("b", "B", 3.0, 2, 0, 0, 2, []),
      SectorSummary("c", "C", 0.0, 0, 0, 0, 0, [])];
    assert Init(ss) == ss[..2] && Init(ss[..2]) == ss[..1] && Init(ss[..1]) == [];
  }

  /** The sector table: ten sectors of six distinct constituents each. */
  lemma TopSectorsShape()
    ensures |TOP_SECTORS| == 10
    ensures forall i :: 0 <= i < |TOP_SECTORS| ==>
              |TOP_SECTORS[i].symbols| == 6 && NoDuplicates(TOP_SECTORS[i].symbols)
  {
  }

  /** `startSectorHeatmapFeed`'s poll: fetch, then summarise. Without a key
      or when the request fails, subscribers get the empty payload. */
  method PollSectorHeatmap(apiKey: string, response: Fetch<Option<seq<TickerSnapshot>>>)
    returns (payload: HeatmapPayload)
    ensures apiKey == "" || response.FetchFailed? ==> payload == HeatmapPayload([], None)
    ensures apiKey != "" && response.Fetched? ==>
              |payload.sectors| == |TOP_SECTORS| && payload.breadth == Some(BreadthOf(payload.sectors))
    ensures apiKey != "" && response.Fetched? ==>
              forall i :: 0 <= i < |TOP_SECTORS| ==>
                payload.sectors[i] == Summarize(TOP_SECTORS[i], BySymbolOf(response.body.GetOr([])))
  {
    var quotes := FetchAllSectorQuotes(apiKey, response);
    payload := BuildHeatmapPayload(quotes);
  }
}
