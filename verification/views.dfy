/** The view/filter engine: the instruments the main table shows, derived from
    the catalog, the search text, the active view, the watchlist and the
    portfolio. The result keeps the catalog's order; nothing is sorted. */
module Views {
  import opened Seqs
  import opened Text
  import opened Types
  import opened Portfolio

  /** The instrument's lower-cased name or symbol contains the lower-cased query. */
  predicate MatchesQuery(c: Currency, query: string) {
    Contains(Lower(c.name), Lower(query)) || Contains(Lower(c.symbol), Lower(query))
  }

  /** The extra restriction a view mode places on an instrument. */
  predicate InView(c: Currency, view: ViewMode, watchlist: seq<string>, portfolio: seq<PortfolioItem>) {
    match view
    case Watchlist => c.id in watchlist
    case Portfolio => HasPosition(portfolio, c.id)
    case Market => true
    case Analysis => true
  }

  /** The derived list of displayed instruments. */
  function FilteredCurrencies(currencies: seq<Currency>, query: string, view: ViewMode,
                              watchlist: seq<string>, portfolio: seq<PortfolioItem>): (r: seq<Currency>)
    ensures IsSubsequence(r, currencies)
    ensures forall c :: c in r <==>
      c in currencies && MatchesQuery(c, query) && InView(c, view, watchlist, portfolio)
    ensures forall c :: (multiset(r)[c] ==
      if MatchesQuery(c, query) && InView(c, view, watchlist, portfolio) then multiset(currencies)[c] else 0)
  {
    var result := Filter((c: Currency) => MatchesQuery(c, query), currencies);
    if view == Watchlist then
      var r := Filter((c: Currency) => c.id in watchlist, result);
      assert IsSubsequence(r, currencies) by {
        SubsequenceTransitive(r, result, currencies);
      }
      r
    else if view == Portfolio then
      var r := Filter((c: Currency) => HasPosition(portfolio, c.id), result);
      assert IsSubsequence(r, currencies) by {
        SubsequenceTransitive(r, result, currencies);
      }
      r
    else
      result
  }

  /** Subsequences compose: a subsequence of a subsequence of `s` is one of `s`. */
  lemma {:induction false} SubsequenceTransitive<T>(a: seq<T>, b: seq<T>, c: seq<T>)
    requires IsSubsequence(a, b) && IsSubsequence(b, c)
    ensures IsSubsequence(a, c)
    decreases |c|
  {
    if a != [] {
      assert b != [] && c != [];
      if b[0] == c[0] && IsSubsequence(b[1..], c[1..]) {
        if a[0] == b[0] && IsSubsequence(a[1..], b[1..]) {
          SubsequenceTransitive(a[1..], b[1..], c[1..]);
        } else {
          SubsequenceTransitive(a, b[1..], c[1..]);
        }
      } else {
        SubsequenceTransitive(a, b, c[1..]);
      }
    }
  }

  /** With an empty query in the market or analysis view, the whole catalog is shown. */
  lemma EmptyQueryShowsAll(currencies: seq<Currency>, view: ViewMode,
                           watchlist: seq<string>, portfolio: seq<PortfolioItem>)
    requires view == Market || view == Analysis
    ensures FilteredCurrencies(currencies, "", view, watchlist, portfolio) == currencies
  {
    var matches := (c: Currency) => MatchesQuery(c, "");
    forall c | c in currencies
      ensures matches(c)
    {
      MatchesEmptyQuery(c);
    }
    FilterKeepsAll(matches, currencies);
    UnrestrictedView(currencies, "", view, watchlist, portfolio);
  }

  /** The market and analysis views apply the search alone. */
  lemma UnrestrictedView(currencies: seq<Currency>, query: string, view: ViewMode,
                         watchlist: seq<string>, portfolio: seq<PortfolioItem>)
    requires view == Market || view == Analysis
    ensures FilteredCurrencies(currencies, query, view, watchlist, portfolio) ==
            Filter((c: Currency) => MatchesQuery(c, query), currencies)
  {
  }

  /** Every instrument matches the empty query. */
  lemma MatchesEmptyQuery(c: Currency)
    ensures MatchesQuery(c, "")
  {
    assert Lower("") == "";
    ContainsEmpty(Lower(c.name));
  }

  /** The watchlist view of an empty watchlist is empty, whatever the query. */
  lemma EmptyWatchlistShowsNothing(currencies: seq<Currency>, query: string, portfolio: seq<PortfolioItem>)
    ensures FilteredCurrencies(currencies, query, Watchlist, [], portfolio) == []
  {
  }

  /** The portfolio view of an empty portfolio is empty, whatever the query. */
  lemma EmptyPortfolioShowsNothing(currencies: seq<Currency>, query: string, watchlist: seq<string>)
    ensures FilteredCurrencies(currencies, query, Portfolio, watchlist, []) == []
  {
  }

  /** Recomputing the view on its own output changes nothing. */
  lemma FilterStable(currencies: seq<Currency>, query: string, view: ViewMode,
                     watchlist: seq<string>, portfolio: seq<PortfolioItem>)
    ensures var r := FilteredCurrencies(currencies, query, view, watchlist, portfolio);
      FilteredCurrencies(r, query, view, watchlist, portfolio) == r
  {
    var r := FilteredCurrencies(currencies, query, view, watchlist, portfolio);
    FilterKeepsAll((c: Currency) => MatchesQuery(c, query), r);
    if view == Watchlist {
      FilterKeepsAll((c: Currency) => c.id in watchlist, r);
    } else if view == Portfolio {
      FilterKeepsAll((c: Currency) => HasPosition(portfolio, c.id), r);
    }
  }

  /** The view depends on the watchlist only through which ids it contains, not
      on their order or repetition. */
  lemma WatchlistOrderIrrelevant(currencies: seq<Currency>, query: string, view: ViewMode,
                                 w1: seq<string>, w2: seq<string>, portfolio: seq<PortfolioItem>)
    requires forall x :: x in w1 <==> x in w2
    ensures FilteredCurrencies(currencies, query, view, w1, portfolio) ==
            FilteredCurrencies(currencies, query, view, w2, portfolio)
  {
    var result := Filter((c: Currency) => MatchesQuery(c, query), currencies);
    FilterCongruent((c: Currency) => c.id in w1, (c: Currency) => c.id in w2, result);
  }

  /** The worked example: searching "bit" over Bitcoin and Ethereum finds only Bitcoin. */
  lemma SearchBitFindsBitcoin(btc: Currency, eth: Currency, view: ViewMode)
    requires btc.name == "Bitcoin" && btc.symbol == "BTC"
    requires eth.name == "Ethereum" && eth.symbol == "ETH"
    requires view == Market || view == Analysis
    ensures FilteredCurrencies([btc, eth], "bit", view, [], []) == [btc]
  {
    BitcoinMatchesBit(btc);
    EthereumMissesBit(eth);
    var p := (c: Currency) => MatchesQuery(c, "bit");
    UnrestrictedView([btc, eth], "bit", view, [], []);
    assert [btc, eth] == [btc] + [eth];
    FilterConcat(p, [btc], [eth]);
    assert Filter(p, [btc]) == [btc] by {
      assert [btc][1..] == [];
    }
    assert Filter(p, [eth]) == [] by {
      assert [eth][1..] == [];
    }
  }

  lemma BitcoinMatchesBit(btc: Currency)
    requires btc.name == "Bitcoin"
    ensures MatchesQuery(btc, "bit")
  {
    assert Lower("Bitcoin") == "bitcoin";
    assert Lower("bit") == "bit";
    assert OccursAt("bitcoin", "bit", 0);
  }

  lemma EthereumMissesBit(eth: Currency)
    requires eth.name == "Ethereum" && eth.symbol == "ETH"
    ensures !MatchesQuery(eth, "bit")
  {
    assert Lower("bit") == "bit";
    assert Lower("Ethereum") == "ethereum";
    assert Lower("ETH") == "eth";
    FirstCharMissing("ethereum", "bit");
    FirstCharMissing("eth", "bit");
  }
}
