/**
 * The frontend's calls to the relay. The network is a parameter: each
 * fetcher is given what came back (`Reply`) and returns the value the
 * source returns, `null` becoming `None`.
 */
module Api {
  import opened Wrappers

  /** One entry of the symbol list. */
  datatype SymbolData = SymbolData(ticker: string, name: string)

  /** The query string of a bars request. */
  datatype BarsQuery = BarsQuery(symbols: string, start: string, end: string, timeframe: string)

  /**
   * What a fetch produced: the request failed outright, or a response
   * arrived with its `ok` flag and its body (`None` when the body does not
   * parse into the expected shape, which makes the source throw).
   */
  datatype Reply<B> = NetworkError | Response(ok: bool, body: Option<B>)

  predicate IsUpperLatin(c: char) {
    'A' <= c <= 'Z'
  }

  /** The regular expression `^[A-Z]+$`, matched one character at a time. */
  function MatchesTickerPattern(t: string): (b: bool)
    ensures b <==> |t| > 0 && forall k :: 0 <= k < |t| ==> IsUpperLatin(t[k])
  {
    if t == [] then false
    else if !IsUpperLatin(t[0]) then false
    else if |t| == 1 then true
    else
      var rest := MatchesTickerPattern(t[1..]);
      assert forall k :: 1 <= k < |t| ==> t[k] == t[1..][k - 1];
      rest
  }

  /** `a` is `b` with some elements dropped, the rest kept in order. */
  predicate IsSubsequence<T(==)>(a: seq<T>, b: seq<T>)
    decreases |b|
  {
    if a == [] then true
    else if b == [] then false
    else (a[0] == b[0] && IsSubsequence(a[1..], b[1..])) || IsSubsequence(a, b[1..])
  }

  /** How many entries have a ticker matching `^[A-Z]+$`. */
  function CountMatching(results: seq<SymbolData>): nat {
    if results == [] then 0
    else (if MatchesTickerPattern(results[0].ticker) then 1 else 0) + CountMatching(results[1..])
  }

  /**
   * `results.filter(symbol => /^[A-Z]+$/.test(symbol.ticker))`: an
   * order-preserving subsequence holding each matching entry as many
   * times as the input does, and nothing else.
   */
  function FilterTickers(results: seq<SymbolData>): (r: seq<SymbolData>)
    ensures forall e :: e in r ==> MatchesTickerPattern(e.ticker)
    ensures forall k :: 0 <= k < |results| && MatchesTickerPattern(results[k].ticker) ==> results[k] in r
    ensures IsSubsequence(r, results)
    ensures |r| == CountMatching(results)
  {
    if results == [] then []
    else
      var rest := FilterTickers(results[1..]);
      assert forall k :: 1 <= k < |results| ==> results[k] == results[1..][k - 1];
      if MatchesTickerPattern(results[0].ticker) then
        assert ([results[0]] + rest)[1..] == rest;
        [results[0]] + rest
      else
        rest
  }

  /** Each entry occurs in the filtered list as often as in the input when it matches, and never otherwise. */
  lemma {:induction false} FilterTickersMultiplicity(results: seq<SymbolData>, x: SymbolData)
    ensures multiset(FilterTickers(results))[x] == if MatchesTickerPattern(x.ticker) then multiset(results)[x] else 0
  {
    if results != [] {
      FilterTickersMultiplicity(results[1..], x);
      assert results == [results[0]] + results[1..];
      assert multiset(results) == multiset([results[0]]) + multiset(results[1..]);
      var rest := FilterTickers(results[1..]);
      if MatchesTickerPattern(results[0].ticker) {
        assert multiset([results[0]] + rest) == multiset([results[0]]) + multiset(rest);
      }
    }
  }

  /** `fetchStockSymbols`: the A-Z filter of the body, or `None` on any failure. */
  function FetchStockSymbols(reply: Reply<seq<SymbolData>>): (r: Option<seq<SymbolData>>)
    ensures r.None? <==> reply.NetworkError? || !reply.ok || reply.body.None?
    ensures r.Some? ==> r.value == FilterTickers(reply.body.value)
    // Corollaries of the clause above and the contract of FilterTickers:
    ensures r.Some? ==> forall e :: e in r.value ==>
      |e.ticker| > 0 && forall k :: 0 <= k < |e.ticker| ==> 'A' <= e.ticker[k] <= 'Z'
    ensures r.Some? ==> IsSubsequence(r.value, reply.body.value)
  {
    match reply
    case NetworkError => None
    case Response(ok, body) =>
      if !ok then None
      else match body
        case None => None
        case Some(results) => Some(FilterTickers(results))
  }

  /** `fetchBarsData`: the parsed body unchanged, or `None` on any failure. */
  function FetchBarsData<B>(reply: Reply<B>): (r: Option<B>)
    ensures r.None? <==> reply.NetworkError? || !reply.ok || reply.body.None?
    ensures r.Some? ==> reply.Response? && r == reply.body
  {
    match reply
    case NetworkError => None
    case Response(ok, body) => if ok then body else None
  }

  /** Tickers with a dot, lower case letters or no letters at all are dropped. */
  lemma FilterTickersExamples()
    ensures FilterTickers([SymbolData("BRK.A", ""), SymbolData("abc", ""), SymbolData("", ""), SymbolData("AAPL", "Apple")])
      == [SymbolData("AAPL", "Apple")]
  {
  }
}
