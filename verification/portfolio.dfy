/** The portfolio ledger: a list of positions, at most one per instrument id,
    edited only by the add-to-portfolio action. */
module Portfolio {
  import opened Wrappers
  import opened Seqs
  import opened Types

  /** Some position refers to instrument `id`. */
  predicate HasPosition(portfolio: seq<PortfolioItem>, id: string) {
    exists i :: 0 <= i < |portfolio| && portfolio[i].id == id
  }

  /** At most one position per instrument id. */
  predicate UniqueIds(portfolio: seq<PortfolioItem>) {
    forall i, j :: 0 <= i < j < |portfolio| ==> portfolio[i].id != portfolio[j].id
  }

  /** At most one position refers to instrument `id`. */
  predicate AtMostOnePosition(portfolio: seq<PortfolioItem>, id: string) {
    forall i, j :: 0 <= i < j < |portfolio| && portfolio[i].id == id ==> portfolio[j].id != id
  }

  /** `portfolio.find(p => p.id === id)`. */
  function Find(portfolio: seq<PortfolioItem>, id: string): (r: Option<PortfolioItem>)
    ensures r.Some? <==> HasPosition(portfolio, id)
    ensures r.Some? ==> r.value.id == id && r.value in portfolio
    ensures forall k ::
      (0 <= k < |portfolio| && portfolio[k].id == id && (forall j :: 0 <= j < k ==> portfolio[j].id != id))
      ==> r == Some(portfolio[k])
  {
    FindFirstUnique((p: PortfolioItem) => p.id == id, portfolio);
    match FindFirst((p: PortfolioItem) => p.id == id, portfolio)
    case Some(k) => Some(portfolio[k])
    case None => None
  }

  /** The amount held in the first position for `id`, or 0 when there is none. */
  function AmountOf(portfolio: seq<PortfolioItem>, id: string): real {
    match Find(portfolio, id)
    case Some(p) => p.amount
    case None => 0.0
  }

  /** The position with its amount raised by one if it is for `id`. */
  function BumpOne(p: PortfolioItem, id: string): (r: PortfolioItem)
    ensures r.id == p.id && r.addedAt == p.addedAt
    ensures r.amount == p.amount + (if p.id == id then 1.0 else 0.0)
  {
    if p.id == id then p.(amount := p.amount + 1.0) else p
  }

  /** Every position for `id` with its amount raised by one; the others as they are. */
  function Bump(portfolio: seq<PortfolioItem>, id: string): (r: seq<PortfolioItem>)
    ensures |r| == |portfolio|
    ensures forall i :: 0 <= i < |r| ==>
      && r[i].id == portfolio[i].id
      && r[i].addedAt == portfolio[i].addedAt
      && r[i].amount == portfolio[i].amount + (if portfolio[i].id == id then 1.0 else 0.0)
  {
    seq(|portfolio|, i requires 0 <= i < |portfolio| => BumpOne(portfolio[i], id))
  }

  /** The add-to-portfolio updater; `now` is the clock reading in milliseconds. */
  function AddToPortfolio(portfolio: seq<PortfolioItem>, id: string, now: int): (r: seq<PortfolioItem>)
    ensures HasPosition(portfolio, id) ==> |r| == |portfolio|
    ensures HasPosition(portfolio, id) ==> forall i :: 0 <= i < |r| ==>
      && r[i].id == portfolio[i].id
      && r[i].addedAt == portfolio[i].addedAt
      && r[i].amount == portfolio[i].amount + (if portfolio[i].id == id then 1.0 else 0.0)
    ensures !HasPosition(portfolio, id) ==> r == portfolio + [PortfolioItem(id, 1.0, now)]
  {
    match Find(portfolio, id)
    case Some(_) => Bump(portfolio, id)
    case None => portfolio + [PortfolioItem(id, 1.0, now)]
  }

  /** Adding always leaves a position for `id`; the set of ids with a position
      grows by exactly `id`. */
  lemma AddHasPosition(portfolio: seq<PortfolioItem>, id: string, now: int)
    ensures HasPosition(AddToPortfolio(portfolio, id, now), id)
    ensures forall x :: HasPosition(AddToPortfolio(portfolio, id, now), x) <==>
      HasPosition(portfolio, x) || x == id
  {
    var r := AddToPortfolio(portfolio, id, now);
    if !HasPosition(portfolio, id) {
      assert r[|portfolio|].id == id;
      forall x | HasPosition(portfolio, x)
        ensures HasPosition(r, x)
      {
        var i :| 0 <= i < |portfolio| && portfolio[i].id == x;
        assert r[i].id == x;
      }
    } else {
      forall x | HasPosition(portfolio, x)
        ensures HasPosition(r, x)
      {
        var i :| 0 <= i < |portfolio| && portfolio[i].id == x;
        assert r[i].id == x;
      }
    }
  }

  /** Adding keeps at most one position per id. */
  lemma AddKeepsUniqueIds(portfolio: seq<PortfolioItem>, id: string, now: int)
    requires UniqueIds(portfolio)
    ensures UniqueIds(AddToPortfolio(portfolio, id, now))
  {
  }

  /** The amount held for `id` goes up by exactly one, a position that already
      existed keeps its creation time, and every other id's position is untouched. */
  lemma AddIncrementsAmount(portfolio: seq<PortfolioItem>, id: string, now: int)
    ensures AmountOf(AddToPortfolio(portfolio, id, now), id) == AmountOf(portfolio, id) + 1.0
    ensures HasPosition(portfolio, id) ==>
      Find(AddToPortfolio(portfolio, id, now), id).value.addedAt == Find(portfolio, id).value.addedAt
    ensures !HasPosition(portfolio, id) ==>
      Find(AddToPortfolio(portfolio, id, now), id) == Some(PortfolioItem(id, 1.0, now))
    ensures forall x :: x != id ==> Find(AddToPortfolio(portfolio, id, now), x) == Find(portfolio, x)
  {
    var r := AddToPortfolio(portfolio, id, now);
    FindFirstOfAdd(portfolio, id, now, id);
    forall x | x != id
      ensures Find(r, x) == Find(portfolio, x)
    {
      FindFirstOfAdd(portfolio, id, now, x);
    }
  }

  /** Where the first position for `x` sits after adding `id`. */
  lemma FindFirstOfAdd(portfolio: seq<PortfolioItem>, id: string, now: int, x: string)
    ensures FindFirst((p: PortfolioItem) => p.id == x, AddToPortfolio(portfolio, id, now)) ==
      (if x != id || HasPosition(portfolio, id)
       then FindFirst((p: PortfolioItem) => p.id == x, portfolio)
       else Some(|portfolio|))
  {
    var r := AddToPortfolio(portfolio, id, now);
    var a := FindFirst((p: PortfolioItem) => p.id == x, r);
    var b := FindFirst((p: PortfolioItem) => p.id == x, portfolio);
    assert forall j :: 0 <= j < |portfolio| ==> r[j].id == portfolio[j].id;
    FindFirstUnique((p: PortfolioItem) => p.id == x, r);
  }

  /** Two first-match indices of the same predicate coincide. */
  lemma FindFirstUnique<T>(p: T -> bool, s: seq<T>)
    ensures forall k :: 0 <= k < |s| && p(s[k]) && (forall j :: 0 <= j < k ==> !p(s[j])) ==>
      FindFirst(p, s) == Some(k)
    ensures (forall j :: 0 <= j < |s| ==> !p(s[j])) ==> FindFirst(p, s) == None
  {
    match FindFirst(p, s)
    case None =>
    case Some(m) =>
      assert p(s[m]);
      forall k | 0 <= k < |s| && p(s[k]) && (forall j :: 0 <= j < k ==> !p(s[j]))
        ensures m == k
      {
        assert !(m < k);
        assert !(k < m);
      }
  }

  /** Adding an absent id twice yields exactly one position for it, with amount 2. */
  lemma AddTwiceFromAbsent(portfolio: seq<PortfolioItem>, id: string, now1: int, now2: int)
    requires !HasPosition(portfolio, id)
    ensures var r := AddToPortfolio(AddToPortfolio(portfolio, id, now1), id, now2);
      && |r| == |portfolio| + 1
      && r[..|portfolio|] == portfolio
      && r[|portfolio|] == PortfolioItem(id, 2.0, now1)
  {
    var once := AddToPortfolio(portfolio, id, now1);
    assert once[|portfolio|].id == id;
    var r := AddToPortfolio(once, id, now2);
    forall i | 0 <= i < |portfolio|
      ensures r[i] == portfolio[i]
    {
      assert once[i] == portfolio[i];
    }
  }
}
