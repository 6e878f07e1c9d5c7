# Trends favorites and request model

A Dafny model of the client-side core of the "trends" market-data viewer:

- **Favorites store** (`favorites.dfy`, module `Favorites`): the provider's ordered list of saved chart
  queries (`FavoriteItem`), the transient "selected for edit" item, and the durable copy under the
  key `"favorites"`. `FavoritesStore` is a class whose methods replace its fields. Each method's new
  list comes from a pure function on sequences:
  - `Appended` is the spread `[...favorites, f]`;
  - `Removed` is the position filter;
  - `Updated` is the index-aware `map`;
  - `AnyHasPrimarySymbol` is `some`.
  `Valid()` is the durable-copy invariant: the stored entry equals the in-memory list.
- **Fetchers** (`api.dfy`, module `Api`): the `^[A-Z]+$` ticker filter of `fetchStockSymbols`, and
  the null-on-failure results of both fetchers. The network is a parameter (`Reply`), and `null`
  becomes `None`.
- **Main page** (`main_page.dfy`, module `MainPage`): the `symbols`/`start`/`end` parameters built
  from the form, the flattening of the per-symbol bars reply, `getCurrentDate`, and the page state
  (`MainPageState`). That state holds the form fields, `isUpdating` and `updateIndex`. It decides
  whether submitting rewrites a favorite or starts a fetch.
- **Relay check** (`relay.dfy`, module `Relay`): only the bars endpoint's "all four parameters
  required" test. It is the partner against which the request builder is checked.

Storage is an abstract map from key to list; there is no JSON text. Asynchronous work is split at
the `await`. `HandleSubmit` returns the query it would send. `ReceiveBars` and `ReceiveSymbols`
take what came back.

The model keeps these behaviours of the code:
- `timeframe` is a free string, not an enumeration.
- An out-of-range index on remove or update is a silent no-op, not a caller error.
- A stored value that is not a list of favorites is not shown to hydrate to an empty list (see
  "## Left out").

## Model

| member | source | states |
|---|---|---|
| `Favorites.Hydrate` | trends/src/context/FavoritesContext.tsx:41-46 | the starting list is the stored list when the key exists, and empty otherwise |
| `Favorites.Appended` | trends/src/context/FavoritesContext.tsx:54-56 | one longer, the new item last, every earlier item kept in its position |
| `Favorites.KeepOtherPositionsIsSplice` | trends/src/context/FavoritesContext.tsx:60 | filtering out the element whose position equals the index is a splice when the position exists, and the identity otherwise |
| `Favorites.Removed` | trends/src/context/FavoritesContext.tsx:59-61 | in range: `list[..i] + list[i+1..]`, exactly one shorter; out of range (negative or too large): unchanged |
| `Favorites.Updated` | trends/src/context/FavoritesContext.tsx:64-66 | length preserved; every other position unchanged; in range: position `i` holds the new item; out of range: the list is unchanged |
| `Favorites.AnyHasPrimarySymbol` | trends/src/context/FavoritesContext.tsx:69 | true exactly when some element's `stockSymbol1` equals the symbol |
| `Favorites.IsFavoriteCaseSensitive` | trends/src/context/FavoritesContext.tsx:69 | "AAPL" is found as "AAPL" but not as "aapl", and a matching `stockSymbol2` does not count |
| `Favorites.PersistThenHydrate` | trends/src/context/FavoritesContext.tsx:41-51 | hydrating from storage just written with a list gives that list back |
| `Favorites.FavoritesStore.constructor` | trends/src/context/FavoritesContext.tsx:36-51 | after mounting, the list is the hydrated one, the selection is empty, and the stored entry equals the list (other keys untouched) |
| `Favorites.FavoritesStore.SetFavorites` | trends/src/context/FavoritesContext.tsx:48-51 | replacing the list rewrites the `"favorites"` entry with it and leaves other keys as they were |
| `Favorites.FavoritesStore.AddFavorite` | trends/src/context/FavoritesContext.tsx:54-56 | the list becomes `old + [f]` and the durable copy follows |
| `Favorites.FavoritesStore.RemoveFavorite` | trends/src/context/FavoritesContext.tsx:59-61 | splice when in range, no change otherwise; the durable copy follows |
| `Favorites.FavoritesStore.UpdateFavorite` | trends/src/context/FavoritesContext.tsx:64-66 | `old[i := f]` when in range, no change otherwise; the durable copy follows |
| `Favorites.FavoritesStore.IsFavorite` | trends/src/context/FavoritesContext.tsx:69 | answers whether some stored favorite has exactly this primary symbol; changes nothing |
| `Favorites.FavoritesStore.SelectFavoriteForEdit` | trends/src/context/FavoritesContext.tsx:72-74 | the selection becomes the argument (possibly none); the list and storage are untouched, so repeating it changes nothing |
| `Api.MatchesTickerPattern` | trends/src/services/api.ts:24 | `^[A-Z]+$` holds exactly when the ticker is non-empty and every character is A-Z |
| `Api.FilterTickers` | trends/src/services/api.ts:24 | every kept entry matches, every matching entry is kept, the result is an order-preserving subsequence of the input, and its length is the number of matching entries, which pins it as the filter |
| `Api.FilterTickersMultiplicity` | trends/src/services/api.ts:24 | an entry occurs in the filtered list as many times as in the input when its ticker matches, and not at all otherwise |
| `Api.FilterTickersExamples` | trends/src/services/api.ts:24 | `BRK.A`, `abc` and the empty ticker are dropped; `AAPL` is kept |
| `Api.FetchStockSymbols` | trends/src/services/api.ts:10-30 | `None` exactly on a network error, a non-ok status or an unparsable body; otherwise exactly the filtered list: every A-Z ticker of the body, and only those, in input order |
| `Api.FetchBarsData` | trends/src/services/api.ts:42-67 | `None` exactly on a network error, a non-ok status or an unparsable body; otherwise the parsed body unchanged |
| `MainPage.DecimalRoundTrip` | trends/src/pages/MainPage.tsx:41-43 | the digits `String(n)` writes denote `n` |
| `MainPage.PadStart` | trends/src/pages/MainPage.tsx:42-43 | the result is at least `width` long, ends with the input and is filled on the left with the fill character |
| `MainPage.TwoDigitsOf` | trends/src/pages/MainPage.tsx:42-43 | for values below 100, `padStart(2, "0")` gives two digits that denote the value |
| `MainPage.CurrentDateFormat` | trends/src/pages/MainPage.tsx:39-45 | `GetCurrentDate` (`getCurrentDate`) is year digits, '-', the 1-based month as two digits, '-', the day as two digits |
| `MainPage.JoinSymbolsSplits` | trends/src/pages/MainPage.tsx:114-117 | for any form text, splitting the `symbols` parameter built by `JoinSymbols` on commas gives the pieces of the first symbol, followed by those of the second symbol when it is non-empty |
| `MainPage.JoinSymbolsSplitsCommaFree` | trends/src/pages/MainPage.tsx:114-117 | for comma-free symbols that split gives `[s1]` when the second symbol is empty and `[s1, s2]` otherwise |
| `MainPage.BuildBarsQuery` | trends/src/pages/MainPage.tsx:114-124 | `symbols` is the first symbol, followed by a comma and the second symbol when the second is non-empty; start is the start date followed by `T00:00:00Z`; end is the end date followed by `T23:59:59Z`; the timeframe is passed through; for comma-free symbols, `symbols` splits back into the form's symbols |
| `MainPage.BuiltQueryPassesRelayCheck` | alpaca-backend/server.mjs:24-29 | the relay's parameter test (`Relay.HasRequiredParams`) accepts a query built from the form exactly when some symbol is non-empty and the timeframe is non-empty |
| `MainPage.FlattenBars` | trends/src/pages/MainPage.tsx:127-138 | the flattened length is the sum of the per-symbol lengths, and every item carries one of the reply's symbol keys |
| `MainPage.FlattenBarsAtIs` | trends/src/pages/MainPage.tsx:127-138 | through the per-symbol `map` (`MapBars`), bar `j` of symbol entry `i` sits at that entry's offset plus `j`, so each symbol's bars stay consecutive and in order |
| `MainPage.FlattenBarsAt` | trends/src/pages/MainPage.tsx:129-136 | that item is tagged with its symbol and has c→close, h→high, l→low, o→open, t→timestamp, v→volume, n→tradesCount |
| `MainPage.BarsOutcome` | trends/src/pages/MainPage.tsx:126-142 | no response or no `bars` member gives "No bars data available."; otherwise the flattened rows of the reply's entries, one per bar |
| `MainPage.IndexOf` | trends/src/pages/MainPage.tsx:104 | -1 exactly when the item is absent; otherwise the first position holding it |
| `MainPage.UpdateOfAbsentSelectionIsNoop` | trends/src/pages/MainPage.tsx:104 | with the selected item no longer listed, the later update uses index -1 and leaves the list unchanged |
| `MainPage.UpdateOfSelectionReplacesIt` | trends/src/pages/MainPage.tsx:96-105 | with the selected item listed, the later update replaces its first occurrence and nothing else |
| `MainPage.MainPageState.constructor` | trends/src/pages/MainPage.tsx:49-66 | initial form: empty symbols, both dates today, `"1min"`, not editing, no bars, no error |
| `MainPage.MainPageState.ReceiveSymbols` | trends/src/pages/MainPage.tsx:79-93 | when `fetchStockSymbols` yields a list (even an empty one), the symbol list becomes the A-Z filter of the reply body; when it yields `None`, the error becomes "Failed to fetch stock symbols" and the list is kept |
| `MainPage.MainPageState.LoadSelectedFavorite` | trends/src/pages/MainPage.tsx:96-106 | a selection is copied into the form (missing `stockSymbol2` becomes `""`), edit mode starts, and `updateIndex` is its index or -1; no selection changes nothing |
| `MainPage.MainPageState.HandleSubmit` | trends/src/pages/MainPage.tsx:151-168 | in edit mode with an index: the favorite at that index becomes the form item (`FormItem`), edit mode ends, and the selection is cleared; otherwise: the store is untouched, loading starts and the request query is returned |
| `MainPage.MainPageState.ReceiveBars` | trends/src/pages/MainPage.tsx:126-147 | loading ends; the flattened bars replace the chart data, or the error message is set |
| `MainPage.MainPageState.HandleAddToFavorites` | trends/src/pages/MainPage.tsx:171-180 | appends exactly the form's fields (`FormItem`) as a new favorite, durable copy included |

## Left out

- Real `localStorage` and JSON text: storage is a map from key to list. In the code an empty stored
  string counts as absent, so the list starts empty. Other text that is not JSON makes `JSON.parse`
  throw. JSON that is not a list of favorites, such as `null`, becomes the list unchecked. Storage
  here holds only lists, so none of these cases is modelled.
- React effect scheduling: the first persist of `[]` before the hydrated list lands is not modelled.
  The store's constructor gives the steady state after both mount effects have run.
- `favorites.indexOf(selectedFavorite)` compares references. `IndexOf` compares values, so with two
  equal favorites it finds the first.
- Favorite indices are integers. A fractional JavaScript number, which matches no position, is not
  modelled.
- `MainPage.MainPageState.constructor`: takes the date already formatted. `CurrentDateFormat`
  states what `getCurrentDate` produces from the clock reading. The clock is a parameter (`LocalDate`),
  and years are non-negative.
- Async fetches, promises, `encodeURIComponent`, URLs and `console.error`. Each fetch is split into
  the query it sends and a `Reply` it receives. In-flight requests are neither ordered nor cancelled.
- The `catch` branches of `loadSymbols` and `handleFetchBars` are not modelled. The fetchers never
  throw, and typed replies cannot hold a non-array bars entry.
- Bar prices are `real` and counts are `int`, copied unchanged. Floating point is not modelled.
- Chart.js configuration, zoom, dark mode, JSX rendering and `toLocaleString` labels: these are UI.
- `App.tsx` routing and provider wiring.
- The relay's upstream calls, credentials and error relaying in `server.mjs`. Only its required
  parameter check is modelled.
