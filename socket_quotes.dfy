/** The browser hooks' reducers for the `quotes` and `indexQuotes` events:
    each copies the previous map and files every incoming quote under its
    symbol, in payload order. */
module SocketQuotes {
  import opened Wrappers
  import opened Seqs
  import opened MarketData

  /** Copy `prev`, then `next[key(item)] = item` for each item in order.
      Maps are values, so `prev` itself is never changed. */
  method MergeBySymbol<V>(prev: map<string, V>, items: seq<V>, key: V -> string) returns (next: map<string, V>)
    ensures next == Upsert(prev, items, key)
    ensures next.Keys == prev.Keys + (set v | v in items :: key(v))
    ensures forall i :: 0 <= i < |items| && (forall j :: i < j < |items| ==> key(items[j]) != key(items[i]))
              ==> next[key(items[i])] == items[i]
    ensures forall k :: k in prev && (forall j :: 0 <= j < |items| ==> key(items[j]) != k) ==> next[k] == prev[k]
  {
    next := prev;
    for i := 0 to |items|
      invariant next == Upsert(prev, items[..i], key)
    {
      assert Init(items[..i + 1]) == items[..i] && Last(items[..i + 1]) == items[i];
      next := next[key(items[i]) := items[i]];
    }
    assert items[..|items|] == items;
    forall i | 0 <= i < |items| && (forall j :: i < j < |items| ==> key(items[j]) != key(items[i]))
      ensures next[key(items[i])] == items[i]
    {
      UpsertLastWins(prev, items, key, i);
    }
    forall k | k in prev && (forall j :: 0 <= j < |items| ==> key(items[j]) != k)
      ensures next[k] == prev[k]
    {
      UpsertUntouched(prev, items, key, k);
    }
  }

  /** The `quotes` event payload: a single quote or an array of them. */
  datatype QuotesPayload = OneQuote(quote: Quote) | QuoteList(quotes: seq<Quote>)

  /** The quotes of a payload, in order: an array as it is, a single quote
      as a list of one. */
  function QuotesList(data: QuotesPayload): (r: seq<Quote>)
    ensures data.OneQuote? ==> r == [data.quote]
    ensures data.QuoteList? ==> r == data.quotes
  {
    match data
    case OneQuote(q) => [q]
    case QuoteList(qs) => qs
  }

  /** The `quotes` reducer of `useSocketQuotes`. */
  method OnQuotes(prev: map<string, Quote>, data: QuotesPayload) returns (next: map<string, Quote>)
    ensures next == Upsert(prev, QuotesList(data), QuoteSymbol)
    ensures data.OneQuote? ==> next == prev[data.quote.symbol := data.quote]
    ensures next.Keys == prev.Keys + (set q | q in QuotesList(data) :: q.symbol)
  {
    next := MergeBySymbol(prev, QuotesList(data), QuoteSymbol);
  }

  /** The index quotes of a payload, in order; a missing payload reads as
      none. */
  function IndexQuotesList(data: Option<seq<IndexQuote>>): (r: seq<IndexQuote>)
    ensures data.None? ==> r == []
    ensures data.Some? ==> r == data.value
  {
    data.GetOr([])
  }

  /** The `indexQuotes` reducer of `useSocketIndexQuotes`. */
  method OnIndexQuotes(prev: map<string, IndexQuote>, data: Option<seq<IndexQuote>>)
    returns (next: map<string, IndexQuote>)
    ensures next == Upsert(prev, IndexQuotesList(data), IndexQuoteSymbol)
    ensures data.None? ==> next == prev
    ensures next.Keys == prev.Keys + (set q | q in IndexQuotesList(data) :: q.symbol)
  {
    next := MergeBySymbol(prev, IndexQuotesList(data), IndexQuoteSymbol);
  }
}
