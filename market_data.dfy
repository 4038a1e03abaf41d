/** The JSON shapes that cross the system's boundaries: the upstream
    ticker snapshot, and the quote records the server emits and the
    browser hooks store. */
module MarketData {
  import opened Wrappers

  /** An OHLCV object of a ticker snapshot (`day`, `prevDay`).  An absent
      object is the one whose fields are all absent, the same as the empty
      object the source substitutes for a missing one. */
  datatype Ohlcv = Ohlcv(o: Option<real>, h: Option<real>, l: Option<real>, c: Option<real>, v: Option<real>)

  const NoOhlcv: Ohlcv := Ohlcv(None, None, None, None, None)

  /** One ticker object of the upstream stock snapshot: `ticker`, `day`,
      `lastTrade.p`, `prevDay`, `todaysChange`, `todaysChangePerc`. */
  datatype TickerSnapshot = TickerSnapshot(
    ticker: string,
    day: Ohlcv,
    lastTradePrice: Option<real>,
    prevDay: Ohlcv,
    todaysChange: Option<real>,
    todaysChangePerc: Option<real>)

  /** A stock quote as `fetchQuote` builds it and the `quotes` event carries it. */
  datatype Quote = Quote(
    symbol: string,
    price: real,
    open: real,
    high: real,
    low: real,
    close: real,
    volume: real,
    timestamp: int)

  /** An index quote as `fetchIndices` builds it and the `indexQuotes` event carries it. */
  datatype IndexQuote = IndexQuote(
    symbol: string,
    name: string,
    price: real,
    open: real,
    high: real,
    low: real,
    close: real,
    change: real,
    changePercent: real,
    timestamp: int)

  function QuoteSymbol(q: Quote): string { q.symbol }

  function IndexQuoteSymbol(q: IndexQuote): string { q.symbol }
}
