/** The dashboard session: the state the top-level component owns, the user and
    timer actions that update it, the views derived from it, and the snapshot it
    saves and restores. The blob store and JSON encoding are abstracted away: a
    stored snapshot is either absent, unreadable, or a record of optional fields. */
module Session {
  import opened Wrappers
  import opened Seqs
  import opened Types
  import opened Catalog
  import opened Watchlist
  import opened Portfolio
  import opened Views
  import opened Valuation
  import opened Simulation
  import opened Languages

  datatype State = State(
    currencies: seq<Currency>,
    view: ViewMode,
    watchlist: seq<string>,
    portfolio: seq<PortfolioItem>,
    query: string,
    lang: Language)

  /** What can change the state: the user's actions and the simulation timer. */
  datatype Action =
    | ToggleWatch(id: string)
    | AddPosition(id: string, now: int)
    | SwitchLanguage
    | SetView(view: ViewMode)
    | SetQuery(query: string)
    | PriceTick(inputs: nat -> TickInput)

  /** The state on first render: the seed catalog, the market view, empty
      ledgers, an empty search and English. */
  function Init(random: nat -> real): (s: State)
    ensures s.watchlist == [] && s.portfolio == [] && s.query == ""
    ensures s.view == Market && s.lang == EN
    ensures Valid(s)
    ensures Displayed(s) == s.currencies
  {
    var s := State(InitialCurrencies(random), Market, [], [], "", EN);
    assert Valid(s) by {
      SeedIdsDistinct(random);
      SeedPricesPositive(random);
    }
    assert Displayed(s) == s.currencies by {
      EmptyQueryShowsAll(s.currencies, Market, [], []);
    }
    s
  }

  /** Applies one action; each touches exactly one part of the state, and a
      price tick keeps the listing. */
  function Step(s: State, a: Action): (r: State)
    ensures SameListing(s.currencies, r.currencies)
    ensures !a.PriceTick? ==> r.currencies == s.currencies
    ensures !a.ToggleWatch? ==> r.watchlist == s.watchlist
    ensures !a.AddPosition? ==> r.portfolio == s.portfolio
    ensures !a.SwitchLanguage? ==> r.lang == s.lang
    ensures !a.SetView? ==> r.view == s.view
    ensures !a.SetQuery? ==> r.query == s.query
  {
    match a
    case ToggleWatch(id) => s.(watchlist := ToggleWatchlist(s.watchlist, id))
    case AddPosition(id, now) => s.(portfolio := AddToPortfolio(s.portfolio, id, now))
    case SwitchLanguage => s.(lang := ToggleLanguage(s.lang))
    case SetView(v) => s.(view := v)
    case SetQuery(q) => s.(query := q)
    case PriceTick(inputs) => s.(currencies := Tick(s.currencies, inputs))
  }

  /** Applies actions in order. */
  function Run(s: State, actions: seq<Action>): State
    decreases |actions|
  {
    if actions == [] then s else Run(Step(s, actions[0]), actions[1..])
  }

  /** The platform's generator returns values in [0, 1). */
  ghost predicate DrawsInRange(a: Action) {
    a.PriceTick? ==> forall i :: 0.0 <= a.inputs(i).random < 1.0
  }

  /** The invariants the session keeps: a duplicate-free watchlist, at most one
      position per id, distinct instrument ids, full history windows and
      positive prices. */
  predicate Valid(s: State) {
    && NoDuplicates(s.watchlist)
    && UniqueIds(s.portfolio)
    && DistinctIds(s.currencies)
    && HistoriesHaveLength(s.currencies, HistoryLength)
    && forall i :: 0 <= i < |s.currencies| ==> s.currencies[i].price > 0.0
  }

  /** The rows the main table shows. */
  function Displayed(s: State): seq<Currency> {
    FilteredCurrencies(s.currencies, s.query, s.view, s.watchlist, s.portfolio)
  }

  /** The net equity shown in the header. */
  function NetEquity(s: State): real {
    PortfolioValue(s.portfolio, s.currencies)
  }

  lemma StepKeepsValid(s: State, a: Action)
    requires Valid(s) && DrawsInRange(a)
    ensures Valid(Step(s, a))
  {
    match a
    case ToggleWatch(id) => ToggleKeepsNoDuplicates(s.watchlist, id);
    case AddPosition(id, now) => AddKeepsUniqueIds(s.portfolio, id, now);
    case PriceTick(inputs) =>
      var next := Tick(s.currencies, inputs);
      forall i | 0 <= i < |next|
        ensures next[i].price > 0.0
      {
        TickKeepsPricePositive(s.currencies[i], inputs(i));
      }
    case _ =>
  }

  /** Every reachable state is valid. */
  lemma {:induction false} RunKeepsValid(s: State, actions: seq<Action>)
    requires Valid(s)
    requires forall k :: 0 <= k < |actions| ==> DrawsInRange(actions[k])
    ensures Valid(Run(s, actions))
    decreases |actions|
  {
    if actions != [] {
      StepKeepsValid(s, actions[0]);
      RunKeepsValid(Step(s, actions[0]), actions[1..]);
    }
  }

  /** Toggling the same id twice may reorder the watchlist but never changes
      which rows are shown. */
  lemma ToggleTwiceKeepsDisplay(s: State, id: string)
    ensures Displayed(Step(Step(s, ToggleWatch(id)), ToggleWatch(id))) == Displayed(s)
  {
    var w := ToggleWatchlist(ToggleWatchlist(s.watchlist, id), id);
    assert forall x :: x in w <==> x in s.watchlist;
    WatchlistOrderIrrelevant(s.currencies, s.query, s.view, w, s.watchlist, s.portfolio);
  }

  /** Adding a position raises the net equity by the instrument's current price. */
  lemma AddPositionRaisesEquity(s: State, id: string, now: int)
    requires Valid(s)
    ensures NetEquity(Step(s, AddPosition(id, now))) == NetEquity(s) + UnitPrice(s.currencies, id)
  {
    assert AtMostOnePosition(s.portfolio, id);
    AddRaisesValueByUnitPrice(s.portfolio, s.currencies, id, now);
  }

  /** The persisted record; a field the reader cannot find is None. */
  datatype Saved = Saved(
    watchlist: Option<seq<string>>,
    portfolio: Option<seq<PortfolioItem>>,
    language: Option<Language>)

  /** What reading the blob store yields at startup. */
  datatype Stored = Absent | Unreadable | Parsed(saved: Saved)

  /** The record written after every change of watchlist, portfolio or language.
      Restoring it into any session brings back the same watchlist, portfolio
      and language. */
  function Snapshot(s: State): (r: Saved)
    ensures r.watchlist == Some(s.watchlist) && r.portfolio == Some(s.portfolio)
    ensures r.language == Some(s.lang)
    ensures forall start :: Restore(start, Parsed(r)).watchlist == s.watchlist
    ensures forall start :: Restore(start, Parsed(r)).portfolio == s.portfolio
    ensures forall start :: Restore(start, Parsed(r)).lang == s.lang
  {
    Saved(Some(s.watchlist), Some(s.portfolio), Some(s.lang))
  }

  /** The startup load: an absent or unreadable blob leaves the state alone; a
      readable one replaces watchlist and portfolio (a missing list counts as
      empty) and replaces the language only when one was saved. */
  function Restore(s: State, stored: Stored): (r: State)
    ensures !stored.Parsed? ==> r == s
    ensures r.currencies == s.currencies && r.view == s.view && r.query == s.query
    ensures stored.Parsed? ==> r.watchlist == stored.saved.watchlist.GetOr([])
    ensures stored.Parsed? ==> r.portfolio == stored.saved.portfolio.GetOr([])
    ensures stored.Parsed? && stored.saved.language.None? ==> r.lang == s.lang
    ensures stored.Parsed? && stored.saved.language.Some? ==> r.lang == stored.saved.language.value
  {
    match stored
    case Parsed(saved) =>
      s.(watchlist := saved.watchlist.GetOr([]),
         portfolio := saved.portfolio.GetOr([]),
         lang := if saved.language.Some? then saved.language.value else s.lang)
    case _ => s
  }

  /** Restoring does not check what it reads: the session stays valid only when
      the saved lists are themselves duplicate-free. */
  lemma RestoreKeepsValid(s: State, stored: Stored)
    requires Valid(s)
    requires stored.Parsed? ==> NoDuplicates(stored.saved.watchlist.GetOr([]))
    requires stored.Parsed? ==> UniqueIds(stored.saved.portfolio.GetOr([]))
    ensures Valid(Restore(s, stored))
  {
  }
}
