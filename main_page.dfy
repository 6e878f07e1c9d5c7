/**
 * The main page: how a bars request is built from the form, how the
 * reply is flattened for the charts, the default date, and the edit-mode
 * state that decides whether submitting the form fetches bars or
 * rewrites a favorite.
 */
module MainPage {
  import opened Wrappers
  import opened Favorites
  import opened Api
  import Relay

  // ---------------------------------------------------------------------
  // getCurrentDate

  /** A reading of the local clock: full year, 0-based month, day of month. */
  datatype LocalDate = LocalDate(year: nat, monthIndex: nat, day: nat)

  predicate IsDigit(c: char) {
    '0' <= c <= '9'
  }

  predicate AllDigits(s: string) {
    forall k :: 0 <= k < |s| ==> IsDigit(s[k])
  }

  function DigitChar(d: nat): (c: char)
    requires d < 10
    ensures IsDigit(c) && c as int - '0' as int == d
  {
    ('0' as int + d) as char
  }

  /** `String(n)` for a non-negative integer: its decimal digits, no leading zero. */
  function DecimalString(n: nat): (s: string)
    ensures |s| > 0 && AllDigits(s)
    ensures |s| == 1 <==> n < 10
  {
    if n < 10 then [DigitChar(n)] else DecimalString(n / 10) + [DigitChar(n % 10)]
  }

  /** The number a string of decimal digits denotes, most significant first. */
  function DecimalValue(s: string): nat
    requires AllDigits(s)
  {
    if s == [] then 0
    else DecimalValue(s[..|s| - 1]) * 10 + (s[|s| - 1] as int - '0' as int)
  }

  /** Reading back the digits `String(n)` writes gives `n`. */
  lemma {:induction false} DecimalRoundTrip(n: nat)
    ensures DecimalValue(DecimalString(n)) == n
  {
    if n >= 10 {
      DecimalRoundTrip(n / 10);
      var s := DecimalString(n);
      assert s[..|s| - 1] == DecimalString(n / 10);
    }
  }

  /** `s.padStart(width, fill)` with a one-character fill. */
  function PadStart(s: string, width: nat, fill: char): (r: string)
    ensures |r| == if |s| >= width then |s| else width
    ensures r[|r| - |s|..] == s
    ensures forall k :: 0 <= k < |r| - |s| ==> r[k] == fill
  {
    if |s| >= width then s else seq(width - |s|, _ => fill) + s
  }

  /** `String(n).padStart(2, "0")` */
  function TwoDigits(n: nat): string {
    PadStart(DecimalString(n), 2, '0')
  }

  lemma {:induction false} TwoDigitsOf(n: nat)
    requires n < 100
    ensures |TwoDigits(n)| == 2 && AllDigits(TwoDigits(n))
    ensures DecimalValue(TwoDigits(n)) == n
  {
    DecimalRoundTrip(n);
    var s := DecimalString(n);
    if n < 10 {
      assert TwoDigits(n) == ['0'] + s;
      assert (['0'] + s)[..1] == ['0'];
    } else {
      assert s == DecimalString(n / 10) + [DigitChar(n % 10)];
      assert DecimalString(n / 10) == [DigitChar(n / 10)];
    }
  }

  /** `getCurrentDate()`: `YYYY-MM-DD` from the clock reading `today`. */
  function GetCurrentDate(today: LocalDate): string {
    DecimalString(today.year) + "-" + TwoDigits(today.monthIndex + 1) + "-" + TwoDigits(today.day)
  }

  /**
   * `r` is `y` digits denoting `year`, '-', two digits denoting `month`,
   * '-', two digits denoting `day`.
   */
  ghost predicate IsDateLayout(r: string, y: nat, year: nat, month: nat, day: nat) {
    && |r| == y + 6
    && r[y] == '-' && r[y + 3] == '-'
    && AllDigits(r[..y]) && AllDigits(r[y + 1..y + 3]) && AllDigits(r[y + 4..])
    && DecimalValue(r[..y]) == year
    && DecimalValue(r[y + 1..y + 3]) == month
    && DecimalValue(r[y + 4..]) == day
  }

  lemma {:induction false} DashJoinLayout(ys: string, ms: string, ds: string, year: nat, month: nat, day: nat)
    requires AllDigits(ys) && AllDigits(ms) && AllDigits(ds) && |ms| == 2 && |ds| == 2
    requires DecimalValue(ys) == year && DecimalValue(ms) == month && DecimalValue(ds) == day
    ensures IsDateLayout(ys + "-" + ms + "-" + ds, |ys|, year, month, day)
  {
    var r := ys + "-" + ms + "-" + ds;
    var y := |ys|;
    assert r[..y] == ys;
    assert r[y + 1..y + 3] == ms;
    assert r[y + 4..] == ds;
  }

  /** For a real calendar reading the month is written 1-based, and month and day take two digits each. */
  lemma {:induction false} CurrentDateFormat(today: LocalDate)
    requires today.monthIndex < 12 && 1 <= today.day <= 31
    ensures IsDateLayout(GetCurrentDate(today), |DecimalString(today.year)|, today.year, today.monthIndex + 1, today.day)
  {
    var ys, ms, ds := DecimalString(today.year), TwoDigits(today.monthIndex + 1), TwoDigits(today.day);
    assert GetCurrentDate(today) == ys + "-" + ms + "-" + ds;
    DecimalRoundTrip(today.year);
    TwoDigitsOf(today.monthIndex + 1);
    TwoDigitsOf(today.day);
    DashJoinLayout(ys, ms, ds, today.year, today.monthIndex + 1, today.day);
  }

  // ---------------------------------------------------------------------
  // The bars request

  const DayStart: string := "T00:00:00Z"
  const DayEnd: string := "T23:59:59Z"

  /** The `symbols` parameter: the second symbol is appended after a comma when it is non-empty. */
  function JoinSymbols(stockSymbol1: string, stockSymbol2: string): string {
    if stockSymbol2 != "" then stockSymbol1 + "," + stockSymbol2 else stockSymbol1
  }

  /** One character in front of already split text: a comma starts a new piece, anything else extends the first. */
  function PushChar(c: char, parts: seq<string>): (r: seq<string>)
    requires |parts| > 0
    ensures |r| > 0
  {
    if c == ',' then [""] + parts else [[c] + parts[0]] + parts[1..]
  }

  /** How a comma-separated symbol list is read back into its symbols. */
  function SplitOnCommas(s: string): (parts: seq<string>)
    ensures |parts| > 0
  {
    if s == [] then [""] else PushChar(s[0], SplitOnCommas(s[1..]))
  }

  lemma PushCharAppend(c: char, p: seq<string>, q: seq<string>)
    requires |p| > 0
    ensures PushChar(c, p + q) == PushChar(c, p) + q
  {
    if c != ',' {
      assert (p + q)[0] == p[0] && (p + q)[1..] == p[1..] + q;
    }
  }

  lemma {:induction false} SplitWithoutComma(s: string)
    requires ',' !in s
    ensures SplitOnCommas(s) == [s]
  {
    if s != [] {
      assert ',' !in s[1..] by {
        forall k | 0 <= k < |s[1..]| ensures s[1..][k] != ',' {
          assert s[1..][k] == s[k + 1];
        }
      }
      SplitWithoutComma(s[1..]);
      assert [s[0]] + s[1..] == s;
    }
  }

  /** Splitting at a comma splits each side separately. */
  lemma {:induction false} SplitAroundComma(a: string, b: string)
    ensures SplitOnCommas(a + "," + b) == SplitOnCommas(a) + SplitOnCommas(b)
  {
    var s := a + "," + b;
    if a == [] {
      assert s[0] == ',' && s[1..] == b;
    } else {
      SplitAroundComma(a[1..], b);
      assert s[0] == a[0] && s[1..] == a[1..] + "," + b;
      PushCharAppend(a[0], SplitOnCommas(a[1..]), SplitOnCommas(b));
    }
  }

  /** Splitting the `symbols` parameter gives the pieces of the first symbol, then those of the second if it is non-empty. */
  lemma JoinSymbolsSplits(stockSymbol1: string, stockSymbol2: string)
    ensures SplitOnCommas(JoinSymbols(stockSymbol1, stockSymbol2))
      == if stockSymbol2 == "" then SplitOnCommas(stockSymbol1)
         else SplitOnCommas(stockSymbol1) + SplitOnCommas(stockSymbol2)
  {
    if stockSymbol2 != "" {
      SplitAroundComma(stockSymbol1, stockSymbol2);
    }
  }

  /** Joining two comma-free symbols and splitting the result gives back the symbols asked for. */
  lemma JoinSymbolsSplitsCommaFree(stockSymbol1: string, stockSymbol2: string)
    ensures ',' !in stockSymbol1 && ',' !in stockSymbol2 ==>
      SplitOnCommas(JoinSymbols(stockSymbol1, stockSymbol2))
        == if stockSymbol2 == "" then [stockSymbol1] else [stockSymbol1, stockSymbol2]
  {
    JoinSymbolsSplits(stockSymbol1, stockSymbol2);
    if ',' !in stockSymbol1 && ',' !in stockSymbol2 {
      SplitWithoutComma(stockSymbol1);
      SplitWithoutComma(stockSymbol2);
    }
  }

  /** The arguments `handleFetchBars` passes to `fetchBarsData`. */
  function BuildBarsQuery(stockSymbol1: string, stockSymbol2: string, startDate: string, endDate: string, timeframe: string)
    : (q: BarsQuery)
    ensures |q.start| == |startDate| + 10 && |q.end| == |endDate| + 10
    ensures q.start[..|startDate|] == startDate && q.start[|startDate|..] == "T00:00:00Z"
    ensures q.end[..|endDate|] == endDate && q.end[|endDate|..] == "T23:59:59Z"
    ensures q.timeframe == timeframe
    ensures q.symbols == if stockSymbol2 != "" then stockSymbol1 + "," + stockSymbol2 else stockSymbol1
    ensures SplitOnCommas(q.symbols) == if stockSymbol2 == "" then SplitOnCommas(stockSymbol1)
      else SplitOnCommas(stockSymbol1) + SplitOnCommas(stockSymbol2)
    ensures ',' !in stockSymbol1 && ',' !in stockSymbol2 ==>
      SplitOnCommas(q.symbols) == if stockSymbol2 == "" then [stockSymbol1] else [stockSymbol1, stockSymbol2]
  {
    JoinSymbolsSplits(stockSymbol1, stockSymbol2);
    JoinSymbolsSplitsCommaFree(stockSymbol1, stockSymbol2);
    BarsQuery(JoinSymbols(stockSymbol1, stockSymbol2), startDate + DayStart, endDate + DayEnd, timeframe)
  }

  /** The relay refuses a request built from the form exactly when both symbols or the timeframe are empty. */
  lemma BuiltQueryPassesRelayCheck(stockSymbol1: string, stockSymbol2: string, startDate: string, endDate: string, timeframe: string)
    ensures Relay.HasRequiredParams(BuildBarsQuery(stockSymbol1, stockSymbol2, startDate, endDate, timeframe))
      <==> (stockSymbol1 != "" || stockSymbol2 != "") && timeframe != ""
  {
  }

  // ---------------------------------------------------------------------
  // Flattening the bars reply

  /** One bar as the provider sends it. */
  datatype RawBar = RawBar(c: real, h: real, l: real, o: real, t: string, v: int, n: int)

  /** One bar as the charts consume it. */
  datatype BarData = BarData(
    symbol: string,
    close: real,
    high: real,
    low: real,
    open: real,
    timestamp: string,
    volume: int,
    tradesCount: int)

  /** `Object.entries(bars)`: each symbol with its bars, in the reply's key order. */
  type BarsEntries = seq<(string, seq<RawBar>)>

  /** The reply body; `bars` is `None` when the body has no `bars` member. */
  datatype BarsBody = BarsBody(bars: Option<BarsEntries>)

  function ToBarData(symbol: string, bar: RawBar): BarData {
    BarData(symbol, bar.c, bar.h, bar.l, bar.o, bar.t, bar.v, bar.n)
  }

  /** `barsArray.map(bar => ...)` for one symbol. */
  function MapBars(symbol: string, bars: seq<RawBar>): seq<BarData> {
    seq(|bars|, j requires 0 <= j < |bars| => ToBarData(symbol, bars[j]))
  }

  /** The number of bars over all symbols. */
  function TotalBars(entries: BarsEntries): nat {
    if entries == [] then 0 else |entries[0].1| + TotalBars(entries[1..])
  }

  /** The `flatMap` over the entries. */
  function FlattenBars(entries: BarsEntries): (r: seq<BarData>)
    ensures |r| == TotalBars(entries)
    ensures forall b :: b in r ==> exists i :: 0 <= i < |entries| && b.symbol == entries[i].0
  {
    if entries == [] then []
    else
      var head := MapBars(entries[0].0, entries[0].1);
      var rest := FlattenBars(entries[1..]);
      assert forall b :: b in head ==> b.symbol == entries[0].0;
      assert forall b :: b in rest ==> exists i :: 0 <= i < |entries| && b.symbol == entries[i].0 by {
        forall b | b in rest ensures exists i :: 0 <= i < |entries| && b.symbol == entries[i].0 {
          var i :| 0 <= i < |entries[1..]| && b.symbol == entries[1..][i].0;
          assert entries[i + 1] == entries[1..][i];
        }
      }
      head + rest
  }

  /** Where the bars of entry `i` begin in the flattened list. */
  function Offset(entries: BarsEntries, i: nat): nat
    requires i <= |entries|
  {
    TotalBars(entries[..i])
  }

  lemma OffsetStep(entries: BarsEntries, i: nat)
    requires 0 < i <= |entries|
    ensures Offset(entries, i) == |entries[0].1| + Offset(entries[1..], i - 1)
  {
    assert entries[..i][0] == entries[0];
    assert entries[..i][1..] == entries[1..][..i - 1];
  }

  lemma {:induction false} FlattenBarsAtIs(entries: BarsEntries, i: nat, j: nat)
    requires i < |entries| && j < |entries[i].1|
    ensures Offset(entries, i) + j < |FlattenBars(entries)|
    ensures FlattenBars(entries)[Offset(entries, i) + j] == ToBarData(entries[i].0, entries[i].1[j])
  {
    var head := MapBars(entries[0].0, entries[0].1);
    var rest := FlattenBars(entries[1..]);
    assert FlattenBars(entries) == head + rest;
    if i == 0 {
      assert entries[..0] == [];
    } else {
      FlattenBarsAtIs(entries[1..], i - 1, j);
      OffsetStep(entries, i);
      assert entries[1..][i - 1] == entries[i];
    }
  }

  /**
   * Bar `j` of symbol entry `i` lands at `Offset(entries, i) + j`, tagged
   * with its symbol and with c/h/l/o/t/v/n renamed; the bars of one
   * symbol stay consecutive and in their order.
   */
  lemma FlattenBarsAt(entries: BarsEntries, i: nat, j: nat)
    requires i < |entries| && j < |entries[i].1|
    ensures Offset(entries, i) + j < |FlattenBars(entries)|
    ensures var b, raw := FlattenBars(entries)[Offset(entries, i) + j], entries[i].1[j];
      && b.symbol == entries[i].0
      && b.close == raw.c && b.high == raw.h && b.low == raw.l && b.open == raw.o
      && b.timestamp == raw.t && b.volume == raw.v && b.tradesCount == raw.n
  {
    FlattenBarsAtIs(entries, i, j);
  }

  const NoBarsMessage: string := "No bars data available."

  /** What `handleFetchBars` makes of the fetcher's result: chart rows, or the error it shows. */
  function BarsOutcome(response: Option<BarsBody>): (r: Result<seq<BarData>, string>)
    ensures r.Failure? <==> response.None? || response.value.bars.None?
    ensures r.Failure? ==> r.error == NoBarsMessage
    ensures r.Success? ==> r.value == FlattenBars(response.value.bars.value)
    ensures r.Success? ==> |r.value| == TotalBars(response.value.bars.value)
  {
    match response
    case None => Failure(NoBarsMessage)
    case Some(body) =>
      match body.bars
      case None => Failure(NoBarsMessage)
      case Some(entries) => Success(FlattenBars(entries))
  }

  // ---------------------------------------------------------------------
  // Edit mode

  /** `list.indexOf(x)`: the first position holding `x`, or -1. */
  function IndexOf<T(==)>(list: seq<T>, x: T): (i: int)
    ensures -1 <= i < |list|
    ensures i == -1 <==> x !in list
    ensures i >= 0 ==> list[i] == x && forall k :: 0 <= k < i ==> list[k] != x
  {
    if list == [] then -1
    else if list[0] == x then 0
    else
      var r := IndexOf(list[1..], x);
      assert x in list[1..] <==> x in list;
      if r == -1 then -1 else r + 1
  }

  /** Submitting an edit of an item no longer in the list leaves the list as it was. */
  lemma UpdateOfAbsentSelectionIsNoop(list: seq<FavoriteItem>, selected: FavoriteItem, edited: FavoriteItem)
    requires selected !in list
    ensures Updated(list, IndexOf(list, selected), edited) == list
  {
  }

  /** Submitting an edit of a listed item rewrites its first occurrence and nothing else. */
  lemma UpdateOfSelectionReplacesIt(list: seq<FavoriteItem>, k: nat, edited: FavoriteItem)
    requires k < |list|
    ensures var i := IndexOf(list, list[k]);
      0 <= i <= k && list[i] == list[k] && Updated(list, i, edited) == list[i := edited]
  {
  }

  /** The page's form and edit-mode state, attached to the favorites store. */
  class MainPageState {
    const store: FavoritesStore
    var stockSymbol1: string
    var stockSymbol2: string
    var startDate: string
    var endDate: string
    var timeframe: string
    var isUpdating: bool
    var updateIndex: Option<int>
    var barsData: seq<BarData>
    var symbolsList: seq<SymbolData>
    var loading: bool
    var error: string

    ghost predicate Valid()
      reads this, store
    {
      store.Valid()
    }

    /** The favorite the form describes; the second symbol is always present, possibly empty. */
    function FormItem(): FavoriteItem
      reads this
    {
      FavoriteItem(stockSymbol1, Some(stockSymbol2), startDate, endDate, timeframe)
    }

    /** First render: empty symbols, both dates `today` (from `getCurrentDate`), one-minute bars, not editing. */
    constructor (store: FavoritesStore, today: string)
      requires store.Valid()
      ensures Valid() && this.store == store
      ensures stockSymbol1 == "" && stockSymbol2 == ""
      ensures startDate == endDate == today
      ensures timeframe == "1min"
      ensures !isUpdating && updateIndex == None
      ensures barsData == [] && symbolsList == [] && !loading && error == ""
    {
      this.store := store;
      stockSymbol1, stockSymbol2 := "", "";
      startDate, endDate := today, today;
      timeframe := "1min";
      isUpdating, updateIndex := false, None;
      barsData, symbolsList := [], [];
      loading, error := false, "";
    }

    /** The symbol-loading effect, once the symbols fetch has produced `reply`. */
    method ReceiveSymbols(reply: Reply<seq<SymbolData>>)
      modifies this`symbolsList, this`error
      ensures FetchStockSymbols(reply).Some? ==>
        symbolsList == FilterTickers(reply.body.value) && error == old(error)
      ensures FetchStockSymbols(reply).None? ==>
        symbolsList == old(symbolsList) && error == "Failed to fetch stock symbols"
    {
      match FetchStockSymbols(reply) {
        case Some(list) => symbolsList := list;
        case None => error := "Failed to fetch stock symbols";
      }
    }

    /** The effect that runs when the selection changes: load the selected favorite into the form. */
    method LoadSelectedFavorite()
      modifies this`stockSymbol1, this`stockSymbol2, this`startDate, this`endDate, this`timeframe
      modifies this`isUpdating, this`updateIndex
      ensures store.selected.None? ==> unchanged(this)
      ensures store.selected.Some? ==>
        var f := store.selected.value;
        && stockSymbol1 == f.stockSymbol1 && stockSymbol2 == f.stockSymbol2.GetOr("")
        && startDate == f.startDate && endDate == f.endDate && timeframe == f.timeframe
        && isUpdating && updateIndex == Some(IndexOf(store.favorites, f))
    {
      match store.selected
      case None =>
      case Some(f) =>
        stockSymbol1 := f.stockSymbol1;
        stockSymbol2 := f.stockSymbol2.GetOr("");
        startDate := f.startDate;
        endDate := f.endDate;
        timeframe := f.timeframe;
        isUpdating := true;
        updateIndex := Some(IndexOf(store.favorites, f));
    }

    /**
     * `handleSubmit`: in edit mode, write the form over the favorite being
     * edited and leave edit mode; otherwise start a fetch, whose query is
     * returned.
     */
    method HandleSubmit() returns (query: Option<BarsQuery>)
      requires Valid()
      modifies this`isUpdating, this`updateIndex, this`loading, this`error
      modifies store`favorites, store`storage, store`selected
      ensures Valid()
      ensures old(isUpdating && updateIndex.Some?) ==>
        && store.favorites == Updated(old(store.favorites), old(updateIndex.value), FormItem())
        && store.storage == old(store.storage)[FavoritesKey := store.favorites]
        && !isUpdating && updateIndex == None && store.selected == None
        && query == None && loading == old(loading) && error == old(error)
      ensures !old(isUpdating && updateIndex.Some?) ==>
        && query == Some(BuildBarsQuery(stockSymbol1, stockSymbol2, startDate, endDate, timeframe))
        && loading && error == ""
        && unchanged(store) && isUpdating == old(isUpdating) && updateIndex == old(updateIndex)
    {
      if isUpdating && updateIndex.Some? {
        store.UpdateFavorite(updateIndex.value, FormItem());
        isUpdating := false;
        updateIndex := None;
        store.SelectFavoriteForEdit(None);
        query := None;
      } else {
        loading := true;
        error := "";
        query := Some(BuildBarsQuery(stockSymbol1, stockSymbol2, startDate, endDate, timeframe));
      }
    }

    /** The rest of `handleFetchBars`, once the fetch has produced `reply`. */
    method ReceiveBars(reply: Reply<BarsBody>)
      modifies this`barsData, this`error, this`loading
      ensures !loading
      ensures match BarsOutcome(FetchBarsData(reply))
        case Success(bars) => barsData == bars && error == old(error)
        case Failure(message) => error == message && barsData == old(barsData)
    {
      match BarsOutcome(FetchBarsData(reply)) {
        case Success(bars) => barsData := bars;
        case Failure(message) => error := message;
      }
      loading := false;
    }

    /** `handleAddToFavorites`: append exactly what the form holds. */
    method HandleAddToFavorites()
      requires Valid()
      modifies store`favorites, store`storage
      ensures Valid()
      ensures store.favorites == old(store.favorites) + [FormItem()]
      ensures store.storage == old(store.storage)[FavoritesKey := store.favorites]
    {
      store.AddFavorite(FormItem());
    }
  }

  /**
   * Select a stored favorite, load it into the form, submit: the favorite
   * is rewritten from the form (its missing second symbol becoming ""),
   * edit mode ends and the selection is cleared.
   */
  method EditScenario(today: string, f: FavoriteItem)
    requires f.stockSymbol2 == None
  {
    var store := new FavoritesStore(map[FavoritesKey := [f]]);
    var page := new MainPageState(store, today);
    store.SelectFavoriteForEdit(Some(f));
    page.LoadSelectedFavorite();
    assert page.updateIndex == Some(0);
    var query := page.HandleSubmit();
    assert query == None && !page.isUpdating && store.selected == None;
    assert store.favorites == [f.(stockSymbol2 := Some(""))];
  }
}
