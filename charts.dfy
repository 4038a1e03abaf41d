/** The candlestick page: its range table, the bucket arithmetic, the
    mapping of fetched bars to candle and volume series, and the merge of
    a live quote into the last candle. */
module Charts {
  import opened Wrappers
  import opened Seqs
  import opened MarketData
  import Server

  datatype RangeKey = OneDay | FiveDays | OneMonth | ThreeMonths | SixMonths | OneYear

  datatype Timespan = Minute | Hour | Day

  datatype RangeConfig = RangeConfig(multiplier: nat, timespan: Timespan, daysBack: nat, bucketSeconds: nat)

  /** The range table. Each range's live bucket is as long as one of the
      bars it requests, and the window it looks back over never holds more
      buckets than the 5000 bars the page asks for. */
  function Ranges(k: RangeKey): (c: RangeConfig)
    ensures c.multiplier > 0 && c.daysBack > 0
    ensures c.bucketSeconds == c.multiplier * TimespanSeconds(c.timespan)
    ensures c.bucketSeconds > 0
    ensures c.daysBack * 24 * 60 * 60 <= 5000 * c.bucketSeconds
  {
    match k
    case OneDay => RangeConfig(5, Minute, 1, 5 * 60)
    case FiveDays => RangeConfig(15, Minute, 5, 15 * 60)
    case OneMonth => RangeConfig(1, Hour, 30, 60 * 60)
    case ThreeMonths => RangeConfig(1, Day, 90, 24 * 60 * 60)
    case SixMonths => RangeConfig(1, Day, 180, 24 * 60 * 60)
    case OneYear => RangeConfig(1, Day, 365, 24 * 60 * 60)
  }

  /** The `timespan` text sent to `/api/bars`. */
  function TimespanName(t: Timespan): string
  {
    match t
    case Minute => "minute"
    case Hour => "hour"
    case Day => "day"
  }

  function TimespanSeconds(t: Timespan): nat
  {
    match t
    case Minute => 60
    case Hour => 60 * 60
    case Day => 24 * 60 * 60
  }

  const SYMBOLS: seq<string> := ["SPY", "QQQ", "DIA", "IWM", "AAPL", "TSLA"]

  /** The history query the page sends for a symbol and range. */
  function HistoryQuery(symbol: string, k: RangeKey, from: string, to: string): Server.BarsQuery
  {
    Server.BarsQuery(Some(symbol), Some(Server.Finite(Ranges(k).multiplier as real)),
                     Some(TimespanName(Ranges(k).timespan)), Some(from), Some(to), Some(Server.Finite(5000.0)))
  }

  /** Every query the page can send passes the server's checks, unchanged
      apart from upper-casing (a no-op on these symbols). */
  lemma HistoryQueriesAccepted(apiKey: string, symbol: string, k: RangeKey, from: string, to: string)
    requires apiKey != "" && symbol in SYMBOLS && from != "" && to != ""
    ensures Server.CheckBarsQuery(apiKey, HistoryQuery(symbol, k, from, to))
            == Server.Accepted(Server.BarsRequest(symbol, Ranges(k).multiplier as real,
                                                  TimespanName(Ranges(k).timespan), from, to, Server.Finite(5000.0)))
  {
    assert Server.UpperCase(symbol) == symbol;
  }

  /** `bucketTime`: the start of the bucket holding `nowSec`. */
  function BucketTime(nowSec: int, bucketSec: int): (r: int)
    requires bucketSec > 0
    ensures r % bucketSec == 0
    ensures nowSec - bucketSec < r <= nowSec
  {
    var q := nowSec / bucketSec;
    MultipleHasNoRemainder(q, bucketSec);
    q * bucketSec
  }

  lemma MultipleHasNoRemainder(q: int, b: int)
    requires b > 0
    ensures (q * b) % b == 0
  {
    var k, m := (q * b) / b, (q * b) % b;
    assert q * b == k * b + m && 0 <= m < b;
    var d := q - k;
    assert m == d * b;
  }

  /** Two multiples of `b` less than `b` apart are equal. */
  lemma CloseMultiplesEqual(x: int, y: int, b: int)
    requires b > 0 && x % b == 0 && y % b == 0 && -b < x - y < b
    ensures x == y
  {
    var d := x / b - y / b;
    assert x - y == d * b;
  }

  /** The bucket start is the only multiple of the bucket length in
      `(nowSec - bucketSec, nowSec]`. */
  lemma BucketTimeUnique(nowSec: int, bucketSec: int, m: int)
    requires bucketSec > 0 && m % bucketSec == 0 && nowSec - bucketSec < m <= nowSec
    ensures m == BucketTime(nowSec, bucketSec)
  {
    CloseMultiplesEqual(m, BucketTime(nowSec, bucketSec), bucketSec);
  }

  /** Re-bucketing a bucket start gives the same bucket. */
  lemma BucketTimeIdempotent(nowSec: int, bucketSec: int)
    requires bucketSec > 0
    ensures BucketTime(BucketTime(nowSec, bucketSec), bucketSec) == BucketTime(nowSec, bucketSec)
  {
    var r := BucketTime(nowSec, bucketSec);
    BucketTimeUnique(r, bucketSec, r);
  }

  datatype Candle = Candle(time: int, open: real, high: real, low: real, close: real)

  /** A histogram bar; `rising` selects the green colour, otherwise red. */
  datatype VolumeBar = VolumeBar(time: int, value: real, rising: bool)

  /** One element of the fetched `bars` array. */
  datatype BarJson = BarJson(time: int, open: real, high: real, low: real, close: real, volume: Option<real>)

  /** The bars of a response body; a body without them reads as none. */
  function BarsOf(data: Option<seq<BarJson>>): seq<BarJson>
  {
    data.GetOr([])
  }

  /** The candle series: one candle per fetched bar, in the same order,
      carrying that bar's time and prices. */
  function ToCandles(data: Option<seq<BarJson>>): (cs: seq<Candle>)
    ensures |cs| == |BarsOf(data)|
    ensures data.None? ==> cs == []
    ensures forall i :: 0 <= i < |cs| ==>
              var b := BarsOf(data)[i];
              cs[i].time == b.time && cs[i].open == b.open && cs[i].high == b.high
              && cs[i].low == b.low && cs[i].close == b.close
  {
    var bars := BarsOf(data);
    seq(|bars|, i requires 0 <= i < |bars| =>
      Candle(bars[i].time, bars[i].open, bars[i].high, bars[i].low, bars[i].close))
  }

  /** The volume series: one bar per fetched bar, in the same order, at
      that bar's time; a missing volume reads 0, and a bar is green exactly
      when it closed at or above its open. */
  function ToVolumes(data: Option<seq<BarJson>>): (vs: seq<VolumeBar>)
    ensures |vs| == |BarsOf(data)|
    ensures data.None? ==> vs == []
    ensures forall i :: 0 <= i < |vs| ==>
              var b := BarsOf(data)[i];
              vs[i].time == b.time && vs[i].value == b.volume.GetOr(0.0)
              && (vs[i].rising <==> b.close >= b.open)
  {
    var bars := BarsOf(data);
    seq(|bars|, i requires 0 <= i < |bars| =>
      VolumeBar(bars[i].time, bars[i].volume.GetOr(0.0), bars[i].close >= bars[i].open))
  }

  /** The candle shape: open and close lie within the low-high range. */
  predicate WellFormed(c: Candle)
  {
    c.low <= c.open <= c.high && c.low <= c.close <= c.high
  }

  function MaxReal(a: real, b: real): real { if a >= b then a else b }

  function MinReal(a: real, b: real): real { if a <= b then a else b }

  /** The candle for bucket `t` after a live price: it closes at the price
      and spans it; within the last candle's bucket it keeps that candle's
      open and widens its range, in a new bucket it opens at the last close.
      The result is well formed whenever the candle it extends is. */
  function NextCandle(last: Candle, t: int, price: real): (r: Candle)
    ensures r.time == t && r.close == price
    ensures r.low <= price <= r.high
    ensures last.time == t ==> r.open == last.open && last.high <= r.high && r.low <= last.low
    ensures last.time != t ==> r.open == last.close
    ensures (last.time == t ==> WellFormed(last)) ==> WellFormed(r)
  {
    var same := last.time == t;
    Candle(t,
           if same then last.open else last.close,
           MaxReal(if same then last.high else last.close, price),
           MinReal(if same then last.low else last.close, price),
           price)
  }

  /** The series after a live update: an empty series is left alone; the
      last candle is widened in place when `t` is its bucket, otherwise a new
      candle opening at the previous close is appended. */
  function MergeLive(series: seq<Candle>, t: int, price: real): (r: seq<Candle>)
    ensures series == [] ==> r == []
    ensures series != [] && Last(series).time == t ==>
              |r| == |series| && r[..|series| - 1] == Init(series)
              && Last(r) == Candle(t, Last(series).open, MaxReal(Last(series).high, price),
                                   MinReal(Last(series).low, price), price)
    ensures series != [] && Last(series).time != t ==>
              |r| == |series| + 1 && r[..|series|] == series
              && Last(r) == Candle(t, Last(series).close, MaxReal(Last(series).close, price),
                                   MinReal(Last(series).close, price), price)
  {
    if series == [] then series
    else
      var last := Last(series);
      var next := NextCandle(last, t, price);
      if last.time == t then series[|series| - 1 := next] else series + [next]
  }

  /** A live update keeps every candle well formed. */
  lemma MergeLiveKeepsShape(series: seq<Candle>, t: int, price: real)
    requires forall i :: 0 <= i < |series| ==> WellFormed(series[i])
    ensures forall i :: 0 <= i < |MergeLive(series, t, price)| ==> WellFormed(MergeLive(series, t, price)[i])
  {
    var r := MergeLive(series, t, price);
    if series != [] {
      forall i | 0 <= i < |r| ensures WellFormed(r[i]) {
        if i < |series| - 1 {
          assert r[i] == r[..|series| - 1][i] == Init(series)[i] == series[i];
        } else if i == |series| - 1 && Last(series).time != t {
          assert r[i] == r[..|series|][i] == series[i];
        } else {
          assert r[i] == Last(r);
        }
      }
    }
  }

  predicate StrictlyIncreasing(series: seq<Candle>)
  {
    forall i, j :: 0 <= i < j < |series| ==> series[i].time < series[j].time
  }

  /** When the live bucket is not earlier than the last candle, the series
      stays in strictly increasing time order. */
  lemma MergeLiveKeepsOrder(series: seq<Candle>, t: int, price: real)
    requires StrictlyIncreasing(series)
    requires series != [] ==> Last(series).time <= t
    ensures StrictlyIncreasing(MergeLive(series, t, price))
  {
    var r := MergeLive(series, t, price);
    if series != [] {
      forall i, j | 0 <= i < j < |r| ensures r[i].time < r[j].time {
        if Last(series).time == t {
          if j < |series| - 1 {
            assert r[i] == Init(series)[i] == series[i] && r[j] == Init(series)[j] == series[j];
          } else {
            assert r[i] == r[..|series| - 1][i] == series[i];
            assert r[j] == Last(r);
          }
        } else {
          assert r[i] == r[..|series|][i] == series[i];
          if j < |series| {
            assert r[j] == r[..|series|][j] == series[j];
          } else {
            assert r[j] == Last(r);
          }
        }
      }
    }
  }

  /** When the live bucket lies before the last candle (a history whose
      last bar starts later than the bucket of "now"), the new candle is
      appended behind it and the series is out of time order. */
  lemma MergeLiveEarlierBucketAppends()
    ensures var series := [Candle(1704430800, 10.0, 11.0, 9.0, 10.5)];
            var r := MergeLive(series, BucketTime(1704430800 + 60, 86400), 10.7);
            |r| == 2 && !StrictlyIncreasing(r)
  {
    var series := [Candle(1704430800, 10.0, 11.0, 9.0, 10.5)];
    var t := BucketTime(1704430800 + 60, 86400);
    assert t == 1704412800;
    var r := MergeLive(series, t, 10.7);
    assert r[0].time > r[1].time;
  }

  /** The chart page's candle state: `barsRef.current`, whether the candle
      series exists (`candleRef.current`) and the selected range. */
  class LiveChart {
    var bars: seq<Candle>
    var chartReady: bool
    var range: RangeKey

    constructor (range: RangeKey, chartReady: bool)
      ensures bars == [] && this.chartReady == chartReady && this.range == range
    {
      bars := [];
      this.chartReady := chartReady;
      this.range := range;
    }

    /** The history fetch: its bars replace the candle series, and a
        failed or refused request (the `catch` branch) empties it. */
    method LoadHistory(response: Fetch<Option<seq<BarJson>>>)
      modifies this`bars
      ensures response.Fetched? ==> bars == ToCandles(response.body)
      ensures response.FetchFailed? ==> bars == []
    {
      match response
      case Fetched(data) => bars := ToCandles(data);
      case FetchFailed => bars := [];
    }

    /** Selecting another range; later live updates bucket by it. */
    method SelectRange(k: RangeKey)
      modifies this`range
      ensures range == k
    {
      range := k;
    }

    /** The live-update effect: with a live quote and a chart, the current
        bucket of `nowMs` is merged into a copy of the series, which then
        replaces it; `update` is the candle handed to the chart. */
    method OnLiveQuote(liveQuote: Option<Quote>, nowMs: int) returns (update: Option<Candle>)
      modifies this`bars
      ensures liveQuote.None? || !chartReady || old(bars) == [] ==> bars == old(bars) && update.None?
      ensures liveQuote.Some? && chartReady && old(bars) != [] ==>
                var t := BucketTime(nowMs / 1000, Ranges(range).bucketSeconds);
                bars == MergeLive(old(bars), t, liveQuote.value.price)
                && update == Some(Last(bars)) && Last(bars).time == t
    {
      if liveQuote.None? || !chartReady {
        return None;
      }
      var cfg := Ranges(range);
      var nowSec := nowMs / 1000;
      var t := BucketTime(nowSec, cfg.bucketSeconds);
      var series := bars;
      if |series| == 0 {
        return None;
      }
      var last := series[|series| - 1];
      var next := NextCandle(last, t, liveQuote.value.price);
      if last.time == t {
        series := series[|series| - 1 := next];
      } else {
        series := series + [next];
      }
      bars := series;
      update := Some(next);
    }
  }
}
