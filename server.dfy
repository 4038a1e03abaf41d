/** The HTTP and socket handlers of the server entry point: the
    `/api/bars` parameter checks and bar mapping, and the `subscribe`
    symbol filter. */
module Server {
  import opened Wrappers
  import opened Seqs

  // ---------------------------------------------------------------------
  // /api/bars
  // ---------------------------------------------------------------------

  /** The number a non-empty query text converts to: a finite value, NaN,
      or an infinity. */
  datatype NumValue = Finite(r: real) | NaN | PosInfinity | NegInfinity

  /** The query of `/api/bars`.  A field is `None` when the parameter is
      absent or the empty string (the values the handler replaces by its
      default); a numeric field carries the number its text converts to. */
  datatype BarsQuery = BarsQuery(
    symbol: Option<string>,
    multiplier: Option<NumValue>,
    timespan: Option<string>,
    from: Option<string>,
    to: Option<string>,
    limit: Option<NumValue>)

  /** The aggregates request sent upstream once every check passed. */
  datatype BarsRequest = BarsRequest(
    symbol: string,
    multiplier: real,
    timespan: string,
    from: string,
    to: string,
    limit: NumValue)

  datatype HttpError = HttpError(status: int, error: string)

  datatype Checked = Rejected(err: HttpError) | Accepted(request: BarsRequest)

  const KEY_MISSING := HttpError(500, "POLYGON_API_KEY is not set")
  const INVALID_SYMBOL := HttpError(400, "Invalid symbol")
  const INVALID_TIMESPAN := HttpError(400, "Invalid timespan")
  const INVALID_MULTIPLIER := HttpError(400, "Invalid multiplier")
  const RANGE_MISSING := HttpError(400, "from and to are required (YYYY-MM-DD)")
  const FETCH_FAILED := HttpError(500, "Failed to fetch bars")

  const TIMESPANS: seq<string> := ["minute", "hour", "day", "week", "month"]
  const MAX_SYMBOL_LENGTH: nat := 15
  const LIMIT_CAP: real := 50000.0
  const DEFAULT_MULTIPLIER: real := 5.0
  const DEFAULT_LIMIT: real := 1000.0

  /** A text parameter, or the default when it is absent or empty. */
  function OrDefault(p: Option<string>, d: string): string
  {
    match p
    case Some(s) => if s != "" then s else d
    case None => d
  }

  function UpperChar(c: char): char
  {
    if 'a' <= c <= 'z' then (c as int - 32) as char else c
  }

  /** Upper-casing of ASCII letters; other characters are kept. */
  function UpperCase(s: string): (r: string)
    ensures |r| == |s|
    ensures forall i :: 0 <= i < |s| ==> r[i] == UpperChar(s[i])
  {
    seq(|s|, i requires 0 <= i < |s| => UpperChar(s[i]))
  }

  predicate IsSymbolChar(c: char)
  {
    'A' <= c <= 'Z' || c == ':' || c == '.'
  }

  /** One to fifteen characters, each an upper-case ASCII letter, a colon or a dot. */
  predicate IsValidSymbol(s: string)
  {
    1 <= |s| <= MAX_SYMBOL_LENGTH && forall i :: 0 <= i < |s| ==> IsSymbolChar(s[i])
  }

  function SymbolParam(q: BarsQuery): string { UpperCase(OrDefault(q.symbol, "SPY")) }

  function TimespanParam(q: BarsQuery): string { OrDefault(q.timespan, "minute") }

  function MultiplierParam(q: BarsQuery): NumValue { q.multiplier.GetOr(Finite(DEFAULT_MULTIPLIER)) }

  /** The multiplier is a finite, positive number. */
  predicate MultiplierOk(q: BarsQuery)
  {
    MultiplierParam(q).Finite? && MultiplierParam(q).r > 0.0
  }

  predicate RangeGiven(q: BarsQuery)
  {
    OrDefault(q.from, "") != "" && OrDefault(q.to, "") != ""
  }

  /** The limit capped at 50000, with JavaScript's treatment of NaN and
      infinities by its minimum function. */
  function CapLimit(n: NumValue): (r: NumValue)
    ensures r != PosInfinity
    ensures r.Finite? ==> r.r <= LIMIT_CAP
    ensures n.Finite? && n.r <= LIMIT_CAP ==> r == n
    ensures (n.Finite? && n.r > LIMIT_CAP) || n == PosInfinity ==> r == Finite(LIMIT_CAP)
    ensures n == NaN || n == NegInfinity ==> r == n
  {
    match n
    case Finite(x) => if x <= LIMIT_CAP then n else Finite(LIMIT_CAP)
    case PosInfinity => Finite(LIMIT_CAP)
    case _ => n
  }

  /** The checks of `/api/bars`, in the order the handler runs them; the
      first failing check decides the error. */
  function CheckBarsQuery(apiKey: string, q: BarsQuery): (r: Checked)
    ensures apiKey == "" ==> r == Rejected(KEY_MISSING)
    ensures apiKey != "" && !IsValidSymbol(SymbolParam(q)) ==> r == Rejected(INVALID_SYMBOL)
    ensures (apiKey != "" && IsValidSymbol(SymbolParam(q)) && TimespanParam(q) !in TIMESPANS)
              ==> r == Rejected(INVALID_TIMESPAN)
    ensures (apiKey != "" && IsValidSymbol(SymbolParam(q)) && TimespanParam(q) in TIMESPANS && !MultiplierOk(q))
              ==> r == Rejected(INVALID_MULTIPLIER)
    ensures (apiKey != "" && IsValidSymbol(SymbolParam(q)) && TimespanParam(q) in TIMESPANS && MultiplierOk(q)
             && !RangeGiven(q))
              ==> r == Rejected(RANGE_MISSING)
    ensures r.Accepted? <==> apiKey != "" && IsValidSymbol(SymbolParam(q)) && TimespanParam(q) in TIMESPANS
                             && MultiplierOk(q) && RangeGiven(q)
    ensures r.Accepted? ==> r.request.symbol == SymbolParam(q) && IsValidSymbol(r.request.symbol)
    ensures r.Accepted? ==> r.request.timespan in TIMESPANS && r.request.multiplier > 0.0
    ensures r.Accepted? ==> r.request.from != "" && r.request.to != ""
    ensures r.Accepted? ==> r.request.limit == CapLimit(q.limit.GetOr(Finite(DEFAULT_LIMIT)))
    ensures r.Accepted? ==> r.request == BarsRequest(SymbolParam(q), MultiplierParam(q).r, TimespanParam(q),
                                                     OrDefault(q.from, ""), OrDefault(q.to, ""),
                                                     CapLimit(q.limit.GetOr(Finite(DEFAULT_LIMIT))))
  {
    if apiKey == "" then Rejected(KEY_MISSING)
    else
      var symbol := SymbolParam(q);
      var multiplier := MultiplierParam(q);
      var timespan := TimespanParam(q);
      var from := OrDefault(q.from, "");
      var to := OrDefault(q.to, "");
      var limit := q.limit.GetOr(Finite(DEFAULT_LIMIT));
      if !IsValidSymbol(symbol) then Rejected(INVALID_SYMBOL)
      else if timespan !in TIMESPANS then Rejected(INVALID_TIMESPAN)
      else if !multiplier.Finite? || multiplier.r <= 0.0 then Rejected(INVALID_MULTIPLIER)
      else if from == "" || to == "" then Rejected(RANGE_MISSING)
      else Accepted(BarsRequest(symbol, multiplier.r, timespan, from, to, CapLimit(limit)))
  }

  /** Only the dates are needed: the other parameters default to SPY,
      five-minute bars and a limit of 1000. */
  lemma DefaultsAccepted(apiKey: string, from: string, to: string)
    requires apiKey != "" && from != "" && to != ""
    ensures CheckBarsQuery(apiKey, BarsQuery(None, None, None, Some(from), Some(to), None))
            == Accepted(BarsRequest("SPY", 5.0, "minute", from, to, Finite(1000.0)))
  {
    assert UpperCase("SPY") == "SPY";
  }

  /** The symbol is upper-cased before the check, so lower-case input is accepted. */
  lemma LowerCaseSymbolAccepted(apiKey: string)
    requires apiKey != ""
    ensures CheckBarsQuery(apiKey, BarsQuery(Some("spy"), None, None, Some("2024-01-02"), Some("2024-01-03"), None)).Accepted?
    ensures CheckBarsQuery(apiKey, BarsQuery(Some("spy"), None, None, Some("2024-01-02"), Some("2024-01-03"), None)).request.symbol == "SPY"
  {
    assert UpperCase("spy") == "SPY";
  }

  /** A symbol that upper-cases to more than fifteen characters is refused,
      even when every character is allowed. */
  lemma LongSymbolRejected(apiKey: string, q: BarsQuery)
    requires apiKey != "" && q.symbol.Some? && |q.symbol.value| > MAX_SYMBOL_LENGTH
    ensures CheckBarsQuery(apiKey, q) == Rejected(INVALID_SYMBOL)
  {
  }

  /** A symbol that matches the pattern has nothing left to upper-case, so
      the handler's upper-casing leaves every valid symbol as it was sent. */
  lemma {:induction false} ValidSymbolIsUpperCase(s: string)
    requires IsValidSymbol(s)
    ensures UpperCase(s) == s
  {
    forall i | 0 <= i < |s| ensures UpperCase(s)[i] == s[i] {
      assert IsSymbolChar(s[i]);
    }
  }

  /** The symbol pattern: index tickers and class shares pass; digits,
      lower case, the empty string and sixteen characters do not. */
  lemma SymbolPatternExamples()
    ensures IsValidSymbol("I:SPX") && IsValidSymbol("BRK.B") && IsValidSymbol("ABCDEFGHIJKLMNO")
    ensures !IsValidSymbol("") && !IsValidSymbol("spy") && !IsValidSymbol("SPY1")
    ensures !IsValidSymbol("ABCDEFGHIJKLMNOP")
  {
    assert !IsSymbolChar('s') && !IsSymbolChar('1');
    assert "spy"[0] == 's' && "SPY1"[3] == '1';
  }

  /** One aggregate of the upstream `results`. */
  datatype RawBar = RawBar(t: int, o: real, h: real, l: real, c: real, v: Option<real>)

  /** One bar of the response. */
  datatype ApiBar = ApiBar(time: int, open: real, high: real, low: real, close: real, volume: real)

  /** One response bar: its time in whole seconds (rounded down), the
      prices copied, and a volume of 0 when the aggregate has none. */
  function MapBar(b: RawBar): (a: ApiBar)
    ensures a.time * 1000 <= b.t < a.time * 1000 + 1000
    ensures a.open == b.o && a.high == b.h && a.low == b.l && a.close == b.c
    ensures a.volume == b.v.GetOr(0.0)
  {
    ApiBar(b.t / 1000, b.o, b.h, b.l, b.c, b.v.GetOr(0.0))
  }

  /** The mapped bars; there are none unless `results` is an array. */
  function MapBars(results: Option<seq<RawBar>>): (bars: seq<ApiBar>)
    ensures results.None? ==> bars == []
    ensures results.Some? ==> |bars| == |results.value|
    ensures results.Some? ==> forall i :: 0 <= i < |bars| ==> bars[i] == MapBar(results.value[i])
  {
    match results
    case None => []
    case Some(rs) => seq(|rs|, i requires 0 <= i < |rs| => MapBar(rs[i]))
  }

  datatype BarsResponse =
    | ErrorResponse(err: HttpError)
    | BarsBody(symbol: string, bars: seq<ApiBar>, count: nat)

  /** The `/api/bars` handler, given the upstream answer to the request it
      builds (`None` when `results` is not an array). */
  function HandleBars(apiKey: string, q: BarsQuery, upstream: Fetch<Option<seq<RawBar>>>): (resp: BarsResponse)
    ensures CheckBarsQuery(apiKey, q).Rejected? ==> resp == ErrorResponse(CheckBarsQuery(apiKey, q).err)
    ensures CheckBarsQuery(apiKey, q).Accepted? && upstream.FetchFailed? ==> resp == ErrorResponse(FETCH_FAILED)
    ensures resp.BarsBody? <==> CheckBarsQuery(apiKey, q).Accepted? && upstream.Fetched?
    ensures resp.BarsBody? ==> resp.symbol == SymbolParam(q) && IsValidSymbol(resp.symbol)
    ensures resp.BarsBody? ==> resp.bars == MapBars(upstream.body) && resp.count == |resp.bars|
  {
    match CheckBarsQuery(apiKey, q)
    case Rejected(err) => ErrorResponse(err)
    case Accepted(request) =>
      match upstream
      case FetchFailed => ErrorResponse(FETCH_FAILED)
      case Fetched(results) =>
        var mapped := MapBars(results);
        BarsBody(request.symbol, mapped, |mapped|)
  }

  // ---------------------------------------------------------------------
  // subscribe
  // ---------------------------------------------------------------------

  const DEFAULT_SYMBOLS: seq<string> := ["SPY", "QQQ", "DIA", "IWM"]

  /** One element of the `subscribe` argument: a string or anything else. */
  datatype SubscribeItem = Str(s: string) | NotString

  /** The `subscribe` argument: an array, or a single value. */
  datatype SubscribeArg = Many(items: seq<SubscribeItem>) | One(item: SubscribeItem)

  /** The argument as a list: an array as it is, anything else as a
      one-element list. */
  function AsList(arg: SubscribeArg): (r: seq<SubscribeItem>)
    ensures arg.Many? ==> r == arg.items
    ensures arg.One? ==> r == [arg.item]
  {
    match arg
    case Many(items) => items
    case One(item) => [item]
  }

  function AsItem(s: string): SubscribeItem { Str(s) }

  /** The string entries of a list, in order. */
  function StringEntries(items: seq<SubscribeItem>): (r: seq<string>)
    ensures forall s :: s in r <==> Str(s) in items
    decreases |items|
  {
    if items == [] then []
    else
      assert items == Init(items) + [Last(items)];
      StringEntries(Init(items)) + (match Last(items) case Str(s) => [s] case NotString => [])
  }

  /** Every string entry is kept as often as the list holds it. */
  lemma {:induction false} StringEntriesCount(items: seq<SubscribeItem>, s: string)
    ensures multiset(StringEntries(items))[s] == multiset(items)[Str(s)]
    decreases |items|
  {
    if items != [] {
      var init, x := Init(items), Last(items);
      var before := StringEntries(init);
      StringEntriesCount(init, s);
      assert items == init + [x];
      MultisetSnoc(init, x, Str(s));
      match x
      case Str(y) =>
        assert StringEntries(items) == before + [y];
        MultisetSnoc(before, y, s);
      case NotString =>
        assert StringEntries(items) == before;
    }
  }

  /** As items, the string entries form a subsequence of the list; with
      `StringEntriesCount` this determines them completely. */
  lemma {:induction false} StringEntriesInOrder(items: seq<SubscribeItem>)
    ensures IsSubsequence(Map(StringEntries(items), AsItem), items)
    decreases |items|
  {
    if items != [] {
      var init := StringEntries(Init(items));
      StringEntriesInOrder(Init(items));
      assert items == Init(items) + [Last(items)];
      match Last(items)
      case Str(x) =>
        var r := init + [x];
        assert StringEntries(items) == r;
        MapSnoc(init, x, AsItem);
        assert Init(Map(r, AsItem)) == Map(init, AsItem) && Last(Map(r, AsItem)) == Last(items);
      case NotString =>
        assert StringEntries(items) == init;
        SubsequenceExtend(Map(init, AsItem), Init(items), Last(items));
    }
  }

  function IsDefaultSymbol(s: string): bool { s in DEFAULT_SYMBOLS }

  /** The subscription list: the string entries of the argument that are
      default symbols. */
  function ValidSubscriptions(arg: SubscribeArg): (valid: seq<string>)
    ensures forall s :: s in valid <==> Str(s) in AsList(arg) && s in DEFAULT_SYMBOLS
  {
    var strings := StringEntries(AsList(arg));
    forall s | s in strings && IsDefaultSymbol(s) ensures s in Filter(strings, IsDefaultSymbol) {
      FilterComplete(strings, IsDefaultSymbol, s);
    }
    Filter(strings, IsDefaultSymbol)
  }

  /** The kept symbols are the default symbols among the argument's string
      entries, in the argument's order, each as often as the argument
      repeats it. */
  lemma ValidSubscriptionsExact(arg: SubscribeArg)
    ensures forall s :: multiset(ValidSubscriptions(arg))[s] == if s in DEFAULT_SYMBOLS then multiset(AsList(arg))[Str(s)] else 0
    ensures IsSubsequence(ValidSubscriptions(arg), StringEntries(AsList(arg)))
  {
    var strings := StringEntries(AsList(arg));
    FilterIsSubsequence(strings, IsDefaultSymbol);
    forall s ensures multiset(Filter(strings, IsDefaultSymbol))[s]
                     == if s in DEFAULT_SYMBOLS then multiset(AsList(arg))[Str(s)] else 0 {
      FilterMultiplicity(strings, IsDefaultSymbol, s);
      StringEntriesCount(AsList(arg), s);
    }
  }

  /** The server side of one client connection: its rooms and `socket.data.symbols`. */
  class ClientSocket {
    var rooms: set<string>
    var symbols: Option<seq<string>>

    constructor ()
      ensures rooms == {} && symbols == None
    {
      rooms := {};
      symbols := None;
    }

    /** The `subscribe` handler: join the `quotes` room and record the valid
        symbols, or change nothing when none is valid. */
    method Subscribe(arg: SubscribeArg)
      modifies this
      ensures ValidSubscriptions(arg) != [] ==>
                rooms == old(rooms) + {"quotes"} && symbols == Some(ValidSubscriptions(arg))
      ensures ValidSubscriptions(arg) == [] ==> rooms == old(rooms) && symbols == old(symbols)
    {
      var valid := ValidSubscriptions(arg);
      if |valid| > 0 {
        rooms := rooms + {"quotes"};
        symbols := Some(valid);
      }
    }

    /** The `subscribeIndices` handler: join the `indexQuotes` room. */
    method SubscribeIndices()
      modifies this`rooms
      ensures rooms == old(rooms) + {"indexQuotes"}
    {
      rooms := rooms + {"indexQuotes"};
    }

    /** The `subscribeSectorHeatmap` handler: join the `sectorHeatmap` room. */
    method SubscribeSectorHeatmap()
      modifies this`rooms
      ensures rooms == old(rooms) + {"sectorHeatmap"}
    {
      rooms := rooms + {"sectorHeatmap"};
    }
  }
}
