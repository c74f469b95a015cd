/** Portfolio valuation: the total worth of all positions at current catalog
    prices, computed as a left fold from zero like `Array.prototype.reduce`. */
module Valuation {
  import opened Wrappers
  import opened Seqs
  import opened Types
  import opened Portfolio
  import opened Catalog

  /** `currencies.find(c => c.id === id)`: the first instrument with that id. */
  function Lookup(currencies: seq<Currency>, id: string): (r: Option<Currency>)
    ensures r.Some? <==> exists k :: 0 <= k < |currencies| && currencies[k].id == id
    ensures forall k :: (0 <= k < |currencies| && currencies[k].id == id &&
      (forall j :: 0 <= j < k ==> currencies[j].id != id)) ==> r == Some(currencies[k])
  {
    match FindFirst((c: Currency) => c.id == id, currencies)
    case Some(k) => Some(currencies[k])
    case None => None
  }

  /** The current price of the first instrument with that id; 0 when there is none. */
  function UnitPrice(currencies: seq<Currency>, id: string): real {
    match Lookup(currencies, id)
    case Some(c) => c.price
    case None => 0.0
  }

  /** What one position adds to the total: price times amount, or 0 on a lookup miss. */
  function Worth(currencies: seq<Currency>, item: PortfolioItem): (r: real)
    ensures r == UnitPrice(currencies, item.id) * item.amount
  {
    match Lookup(currencies, item.id)
    case Some(c) => c.price * item.amount
    case None => 0.0
  }

  /** The reducer's fold: `acc` plus the worth of each position, left to right.
      It ends at `acc` plus the reference sum of the worths. */
  function Reduce(currencies: seq<Currency>, items: seq<PortfolioItem>, acc: real): (r: real)
    ensures r == acc + Total(currencies, items)
    decreases |items|
  {
    if items == [] then acc
    else Reduce(currencies, items[1..], acc + Worth(currencies, items[0]))
  }

  /** The net equity shown in the header: the sum, over positions, of price
      times amount. */
  function PortfolioValue(portfolio: seq<PortfolioItem>, currencies: seq<Currency>): (r: real)
    ensures r == Total(currencies, portfolio)
  {
    Reduce(currencies, portfolio, 0.0)
  }

  /** The reference definition: the sum of the worths of the positions. */
  function Total(currencies: seq<Currency>, items: seq<PortfolioItem>): real
    decreases |items|
  {
    if items == [] then 0.0
    else Worth(currencies, items[0]) + Total(currencies, items[1..])
  }

  lemma {:induction false} TotalConcat(currencies: seq<Currency>, a: seq<PortfolioItem>, b: seq<PortfolioItem>)
    ensures Total(currencies, a + b) == Total(currencies, a) + Total(currencies, b)
    decreases |a|
  {
    if a == [] {
      assert a + b == b;
    } else {
      assert (a + b)[1..] == a[1..] + b;
      TotalConcat(currencies, a[1..], b);
    }
  }

  /** An empty portfolio is worth nothing, and a position whose id is not in
      the catalog contributes nothing. */
  lemma ValueOfEmptyAndMissing(currencies: seq<Currency>, item: PortfolioItem)
    ensures PortfolioValue([], currencies) == 0.0
    ensures (forall k :: 0 <= k < |currencies| ==> currencies[k].id != item.id) ==>
      PortfolioValue([item], currencies) == 0.0
  {
    assert [item][1..] == [];
  }

  /** Raising the amounts for an id that has no position changes nothing. */
  lemma BumpAbsent(items: seq<PortfolioItem>, id: string)
    requires !HasPosition(items, id)
    ensures Bump(items, id) == items
  {
  }

  /** A bumped position for `id` is worth one unit price more. */
  lemma WorthOfBumpOne(currencies: seq<Currency>, item: PortfolioItem, id: string)
    requires item.id == id
    ensures Worth(currencies, BumpOne(item, id)) == Worth(currencies, item) + UnitPrice(currencies, id)
  {
    var u := UnitPrice(currencies, id);
    assert u * (item.amount + 1.0) == u * item.amount + u;
  }

  /** With exactly one position for `id`, raising its amount by one raises the
      total by one unit price. */
  lemma {:induction false} TotalOfBump(currencies: seq<Currency>, items: seq<PortfolioItem>, id: string)
    requires AtMostOnePosition(items, id) && HasPosition(items, id)
    ensures Total(currencies, Bump(items, id)) == Total(currencies, items) + UnitPrice(currencies, id)
    decreases |items|
  {
    var b, tail := Bump(items, id), Bump(items[1..], id);
    assert b[0] == BumpOne(items[0], id);
    assert b[1..] == tail;
    assert AtMostOnePosition(items[1..], id) by {
      forall i, j | 0 <= i < j < |items[1..]| && items[1..][i].id == id
        ensures items[1..][j].id != id
      {
        assert items[1..][i] == items[i + 1] && items[1..][j] == items[j + 1];
      }
    }
    if items[0].id == id {
      assert !HasPosition(items[1..], id) by {
        forall k | 0 <= k < |items[1..]| ensures items[1..][k].id != id {
          assert items[1..][k] == items[k + 1];
        }
      }
      BumpAbsent(items[1..], id);
      WorthOfBumpOne(currencies, items[0], id);
    } else {
      assert HasPosition(items[1..], id) by {
        var k :| 0 <= k < |items| && items[k].id == id;
        assert items[1..][k - 1].id == id;
      }
      TotalOfBump(currencies, items[1..], id);
    }
  }

  /** With at most one position for the id, adding to the portfolio raises its
      value by exactly the current unit price of the instrument added. */
  lemma AddRaisesValueByUnitPrice(portfolio: seq<PortfolioItem>, currencies: seq<Currency>,
                                  id: string, now: int)
    requires AtMostOnePosition(portfolio, id)
    ensures PortfolioValue(AddToPortfolio(portfolio, id, now), currencies) ==
      PortfolioValue(portfolio, currencies) + UnitPrice(currencies, id)
  {
    if HasPosition(portfolio, id) {
      TotalOfBump(currencies, portfolio, id);
    } else {
      var item := PortfolioItem(id, 1.0, now);
      TotalConcat(currencies, portfolio, [item]);
      assert Total(currencies, [item]) == Worth(currencies, item) by {
        assert [item][1..] == [];
      }
    }
  }

  /** The worked example: two bitcoin at the seed price of 64231.50 are worth 128463. */
  lemma TwoBitcoinExample(random: nat -> real, now: int)
    ensures PortfolioValue([PortfolioItem("bitcoin", 2.0, now)], InitialCurrencies(random)) == 128463.0
  {
    var cs := InitialCurrencies(random);
    assert cs[0].id == "bitcoin" && cs[0].price == 64231.50;
    assert UnitPrice(cs, "bitcoin") == 64231.50;
    var items := [PortfolioItem("bitcoin", 2.0, now)];
    assert items[1..] == [];
    assert Worth(cs, items[0]) == 128463.0;
    assert Reduce(cs, items, 0.0) == Reduce(cs, [], 0.0 + Worth(cs, items[0]));
  }
}
