# NeonEx market/portfolio state engine, modelled in Dafny

NeonEx is a single-page market dashboard. It shows a simulated list of crypto
and forex instruments, keeps a watchlist and a toy portfolio, and re-prices
every instrument on a timer. This project models the dashboard's client-side
state engine as pure functions over immutable sequences of records:

- the seed catalog of seventeen instruments and its synthetic twenty-sample
  price histories (`Catalog`, from `constants.ts`);
- the watchlist toggle (`Watchlist`) and the add-to-portfolio ledger (`Portfolio`);
- the view/filter engine (`Views`): a case-insensitive search on name or symbol,
  then a restriction by view mode;
- portfolio valuation as a left fold (`Valuation`);
- the price-simulation tick (`Simulation`);
- the language toggle (`Languages`);
- the session that owns all of this, with its actions, invariants and the
  save/restore of the persisted snapshot (`Session`).

Shared pieces: `Types` mirrors `types.ts`; `Seqs` models the array methods the
code is written with (`filter`, and the first-match search behind `find`);
`Text` models ASCII `toLowerCase`, string `includes` and the decimal rendering
inside the template literal `${i}:00`; `Wrappers` holds `Option`. Array
`includes` is Dafny's `in`, and `some` is an `exists` predicate
(`Portfolio.HasPosition`).

Nondeterminism is passed in. `Math.random` becomes a stream `random: nat -> real`,
where `random(k)` is the value of the k-th call. A tick takes `inputs: nat -> TickInput`:
instrument i's draw and the `toLocaleTimeString` label read while it is updated.
`Date.now` becomes the parameter `now`. Prices and amounts are `real`, so floating-point
rounding is not modelled.

## Behaviour of the code worth knowing

- Toggling an id that is in the watchlist and then toggling it again puts it
  back at the end of the list (App.tsx:60), not at its old position
  (`Watchlist.ToggleTwicePresent`). The list keeps the same members, and the
  displayed rows are the same, because the view keeps catalog order
  (`Session.ToggleTwiceKeepsDisplay`).
- `history.slice(1)` on an empty history is empty, so a tick turns an empty
  history into a one-sample history (App.tsx:52). The length is preserved only
  for non-empty windows. Every seed window holds 20 samples, so all reachable
  windows hold 20.
- The step `(Math.random() - 0.5) * 0.005` (App.tsx:46) lies in the half-open
  range [-0.0025, 0.0025), because `Math.random` never returns 1.
- The add-to-portfolio updater (App.tsx:67) raises every position with the id,
  not only the one `find` returned. This matters only if a restored snapshot
  holds duplicate ids.

## Model

| member | source | states |
|---|---|---|
| `Watchlist.ToggleWatchlist` | App.tsx:59-61 | If the id is present it is removed (every copy) and the rest keep their order and multiplicities. If it is absent it is appended at the end. No other id gains or loses membership. |
| `Watchlist.ToggleKeepsNoDuplicates` | App.tsx:60 | A duplicate-free watchlist stays duplicate-free after a toggle. |
| `Watchlist.ToggleTwiceAbsent` | App.tsx:60 | Two toggles of an absent id give back the identical list. |
| `Watchlist.ToggleTwicePresent` | App.tsx:60 | Two toggles of a present id restore membership, with the id moved to the end. |
| `Seqs.Filter` | App.tsx:78-87 | `filter` keeps exactly the elements satisfying the predicate, each with its original multiplicity, in their original order. |
| `Seqs.FindFirst` | App.tsx:65 | The first-match search behind `find`: it returns the first position whose element satisfies the predicate, and nothing exactly when no element does. |
| `Portfolio.Find` | App.tsx:65 | Finds a position exactly when one with that id exists. What it returns is the first position for that id, as `find` does. |
| `Portfolio.BumpOne` | App.tsx:67 | The per-position step of the `map`: id and creation time are kept, and the amount rises by 1 exactly when the position is for the id. |
| `Portfolio.Bump` | App.tsx:67 | The `map` keeps the length, every id and every creation time, and adds 1 to the amount of exactly the positions for the id. |
| `Portfolio.AddToPortfolio` | App.tsx:63-71 | With a position for the id, the list keeps its length and order, every position keeps its id and creation time, and exactly the positions for the id gain 1 in amount. Without one, `{id, 1, now}` is appended. |
| `Portfolio.AddHasPosition` | App.tsx:63-71 | After adding, the id has a position, and the ids with positions are the old ones plus this id. |
| `Portfolio.AddKeepsUniqueIds` | App.tsx:63-71 | At most one position per id is preserved. |
| `Portfolio.AddIncrementsAmount` | App.tsx:65-69 | The amount held for the id rises by exactly 1. An existing position keeps its creation time. A new one is `{id, 1, now}`. Lookups of every other id are unchanged. |
| `Portfolio.AddTwiceFromAbsent` | App.tsx:63-71 | Adding an absent id twice leaves the old positions alone and yields exactly one new position, with amount 2 and the first clock reading. |
| `Languages.ToggleLanguage` | App.tsx:73-75 | The result always differs from the input, and EN maps to TR. |
| `Languages.ToggleLanguageTwice` | App.tsx:74 | Toggling twice is the identity. |
| `Text.LowerChar` | App.tsx:79-80 | One character of `toLowerCase`: an ASCII capital moves to its lower-case letter, 32 code points on; every other character is kept; the result is never a capital. |
| `Text.Lower` | App.tsx:79-80 | Lower-casing keeps the length and maps each character through ASCII lower-casing. |
| `Text.LowerIdempotent` | App.tsx:79-80 | Lower-casing a lower-cased string changes nothing. |
| `Text.Contains` | App.tsx:79-80 | `includes` holds exactly when the needle occurs at some position of the string. |
| `Views.FilteredCurrencies` | App.tsx:77-90 | The result is an order-preserving subsequence of the catalog. An instrument is in it exactly when it is in the catalog, it satisfies `Views.MatchesQuery` (its lower-cased name or symbol contains the lower-cased query), and the view admits it. It keeps the catalog's multiplicities. |
| `Views.UnrestrictedView` | App.tsx:83-89 | The market and analysis views show the search result with no further restriction. |
| `Views.MatchesEmptyQuery` | App.tsx:78-81 | Every instrument matches the empty query. |
| `Views.EmptyQueryShowsAll` | App.tsx:78-81 | An empty query in the market or analysis view shows the whole catalog. |
| `Views.EmptyWatchlistShowsNothing` | App.tsx:83-84 | The watchlist view of an empty watchlist is empty for every query. |
| `Views.EmptyPortfolioShowsNothing` | App.tsx:85-86 | The portfolio view of an empty portfolio is empty for every query. |
| `Views.FilterStable` | App.tsx:77-90 | Recomputing the view on its own result changes nothing. |
| `Views.WatchlistOrderIrrelevant` | App.tsx:84 | Two watchlists with the same members give the same view. |
| `Views.SearchBitFindsBitcoin` | App.tsx:78-81 | Searching "bit" over Bitcoin/BTC and Ethereum/ETH finds only Bitcoin. |
| `Views.SubsequenceTransitive` | App.tsx:83-87 | A restriction of a search result is still a subsequence of the catalog. |
| `Valuation.Lookup` | App.tsx:94 | Returns the first instrument with the id, and nothing exactly when no instrument has it. |
| `Valuation.Worth` | App.tsx:95 | A position is worth its instrument's unit price times its amount. A lookup miss has unit price 0. |
| `Valuation.Reduce` | App.tsx:93-96 | The reducer's left fold from any accumulator equals that accumulator plus the reference sum of the positions' worths. |
| `Valuation.PortfolioValue` | App.tsx:92-97 | The portfolio value is the sum over positions of first-match price times amount. |
| `Valuation.ValueOfEmptyAndMissing` | App.tsx:93-96 | An empty portfolio is worth 0. A position whose id no instrument has contributes 0. |
| `Valuation.TotalOfBump` | App.tsx:67 | With exactly one position for the id (other ids may repeat), raising its amount by 1 raises the total by one unit price. |
| `Valuation.AddRaisesValueByUnitPrice` | App.tsx:92-97 | With at most one position for the id, each add raises the portfolio value by the instrument's current unit price. |
| `Valuation.TwoBitcoinExample` | App.tsx:92-97 | Two bitcoin at the seed price 64231.50 are worth 128463. |
| `Simulation.Delta` | App.tsx:46 | A draw in [0, 1) gives a step in [-0.0025, 0.0025). |
| `Simulation.DropOldest` | App.tsx:52 | `slice(1)` drops exactly the first sample of a non-empty window and leaves an empty one empty. |
| `Simulation.TickCurrency` | App.tsx:45-53 | Id, symbol, name, market cap and kind are kept. The history drops its oldest sample and ends with (clock label, new price), so a non-empty window keeps its length. |
| `Simulation.TickMovesPriceAndChange` | App.tsx:46-51 | The price moves by price × step. The 24h change grows by 100 × step, which is exactly the percentage the price moved. |
| `Simulation.TickKeepsPricePositive` | App.tsx:46-47 | A positive price stays positive and within a quarter percent of where it was. |
| `Simulation.Tick` | App.tsx:45-54 | Every instrument is updated from its own input. The listing (length, order, identity fields) is unchanged. Every non-empty window keeps its length. |
| `Simulation.TickSlidesHistory` | App.tsx:52 | A tick drops the oldest sample of a non-empty window and keeps its length. |
| `Simulation.Simulate` | App.tsx:43-57 | Any number of ticks leaves the listing unchanged: same length, and the same ids, symbols, names, market caps and kinds at every position. |
| `Simulation.SimulateKeepsShape` | App.tsx:52 | After any number of ticks, every window still has its length and ids stay distinct. |
| `Simulation.SimulateSlidesWindow` | App.tsx:52 | After k ticks, with k at most the window length, the window's oldest part is the original window minus its first k samples: samples leave oldest first. |
| `Simulation.SimulateTracks` | App.tsx:45-54 | After any ticks, instrument i is its own starting entry run through its own inputs one tick at a time (`Simulation.Track`); no other instrument affects it. |
| `Simulation.WalkToFront` | App.tsx:52 | In a run of equal-length windows, each the previous one slid by one sample, the newest sample of one window moves one place towards the front per later window, until it is the oldest. |
| `Simulation.TrackMovesForward` | App.tsx:52 | After k ticks, the sample appended by tick j sits at position n - k + j of the length-n window, for each of the last n ticks, however large k is. |
| `Simulation.TrackSampleAt` | App.tsx:48-52 | After k ticks, position n - k + j of one instrument's window is tick j's clock label with the price right after tick j, for each of the last n ticks. |
| `Simulation.NewestSampleAt` | App.tsx:52 | After any number k of ticks, position n - k + j of the length-n window is tick j's sample, for each of the last n ticks: tick j's clock label with the price after the first j + 1 ticks. So the window always holds the latest samples oldest to newest; with `Simulation.SimulateSlidesWindow`, while k is at most n, the original samples that remain come first. |
| `Simulation.TickKeepsPricesPositive` | App.tsx:46-47 | With draws in [0, 1), one tick keeps every positive price positive. |
| `Simulation.SimulateKeepsPricesPositive` | App.tsx:46-47 | With draws in [0, 1), positive prices stay positive through any number of ticks. |
| `Text.NatToString` | constants.ts:179 | The decimal rendering is a non-empty string of digits, with no leading zero; it starts with '0' exactly when the number is 0. |
| `Text.ParseNatToString` | constants.ts:179 | Reading the decimal rendering back gives the number. |
| `Catalog.MockSample` | constants.ts:178-181 | Sample i is labelled "i:00". For a positive base and a draw in [0, 1), its price lies in [0.95 × base, 1.05 × base). |
| `Catalog.GenerateMockHistory` | constants.ts:177-182 | Exactly 20 samples. Sample i is labelled `Catalog.TimeLabel(i)`, the string "i:00". For a positive base and a draw in [0, 1), its price lies in [0.95 × base, 1.05 × base). |
| `Catalog.TimeLabelExamples` | constants.ts:179 | The labels read "0:00", "7:00", "19:00". |
| `Catalog.InitialEntry` | constants.ts:4-175 | Entry k carries seed k's fields and a 20-sample history labelled "0:00" onwards, whose samples lie within five percent of its price for draws 20k to 20k+19 in [0, 1). |
| `Catalog.InitialCurrencies` | constants.ts:4-175 | Entry k carries seed k's fields. Its history has 20 samples labelled "0:00" onwards. With the draws 20k to 20k+19 in [0, 1), those samples lie within five percent of entry k's own price. |
| `Catalog.SeedIdsDistinct` | constants.ts:4-175 | Seed ids are pairwise distinct. |
| `Catalog.SeedPricesPositive` | constants.ts:4-175 | Every seed price is strictly positive. |
| `Catalog.SeedHistoriesNearPrice` | constants.ts:13-173 | With draws in [0, 1), every seed sample lies within five percent of its own instrument's price. |
| `Session.Init` | App.tsx:12-18 | The session starts in the market view, with empty ledgers, an empty query and English. It satisfies every session invariant, and its table shows the whole catalog. |
| `Session.Step` | App.tsx:45-75 | Each action changes only its own part of the state: only a tick changes the catalog, and even a tick keeps the listing. The actions also cover the sidebar's `setView` (App.tsx:111) and the search box's `setSearchQuery` (App.tsx:140), which change only the view and only the query. |
| `Session.StepKeepsValid` | App.tsx:45-75 | Every action keeps the invariants: a duplicate-free watchlist, one position per id, distinct instrument ids, 20-sample windows and positive prices. A tick needs its draws in [0, 1). |
| `Session.RunKeepsValid` | App.tsx:45-75 | Every state reached by a sequence of actions is valid. |
| `Session.ToggleTwiceKeepsDisplay` | App.tsx:84 | Toggling one id twice never changes the displayed rows. |
| `Session.AddPositionRaisesEquity` | App.tsx:92-97 | In a valid session, adding a position raises net equity by the instrument's current price. |
| `Session.Snapshot` | App.tsx:37-40 | The saved record holds the watchlist, portfolio and language, and restoring it into any session brings back the same watchlist, portfolio and language. |
| `Session.Restore` | App.tsx:23-35 | An absent or unreadable blob changes nothing. A readable one replaces the watchlist and portfolio, with a missing list read as empty. It replaces the language only when one was saved. Catalog, view and query are untouched. |
| `Session.RestoreKeepsValid` | App.tsx:28-29 | Restoring keeps the session valid when the saved lists are duplicate-free. Nothing on the load path checks this. |

## Left out

- Rendering: the JSX, `MarketTable`, `Sidebar`, the `viewTitle` mapping and all number formatting (`toLocaleString`, `toFixed`). These are presentation only.
- The analysis panel, its loading state and the generative-language client, along with the selected-instrument state that feeds them. They are an asynchronous network collaborator.
- `Session.Restore`: a saved language is one of EN and TR. The code keeps any truthy `language` string (App.tsx:30), so a stored "FR" would become the language and the translation lookup would fail; that state is not representable here.
- The blob store and JSON. `Session.Restore` and `Session.Snapshot` model the load and save abstractly. The `theme` field is left out because it is always written as 'cyber' and never read back. A stored field of the wrong JSON type is not modelled, and neither is the `console.error` logging on a parse failure (App.tsx:31-32), which is a logging effect only.
- The order of the load and save effects on first mount. This is framework scheduling: the loaded state is written back on the next render.
- The 5-second `setInterval` scheduling and its cleanup. A tick is modelled as one action.
- `Math.random`, `Date.now` and `toLocaleTimeString`. They are parameters, and their ranges are assumed only where a lemma says so (draws in [0, 1)).
- IEEE-754 arithmetic. Prices, amounts and changes are exact reals.
- `Text.Lower`: lower-cases ASCII letters only, because Unicode case mapping is not modelled. For non-ASCII names and queries the search therefore differs from the browser's, usually matching less: the browser also lower-cases accented and Greek or Cyrillic capitals. It can also match more, because the browser's mapping depends on context (a capital sigma becomes the word-final ς at the end of a word and σ elsewhere), so name "ΟΣ" with query "Σ" matches here but not in the browser.
- `Valuation.AddRaisesValueByUnitPrice`: requires at most one position for the id. With n positions for it, the updater raises all n and the value grows by n times the price; that case is not stated.
- `Portfolio.AddIncrementsAmount`: speaks of the first position for the id, the one `find` returns. `Portfolio.AddToPortfolio` states the effect on every position.
