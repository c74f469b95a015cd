/** The price simulator: on every timer tick, each instrument independently
    takes a small multiplicative random step, its 24-hour change accumulates the
    step in percentage points, and its history window slides by one sample.
    Per instrument, `inputs(i)` supplies the uniform draw in [0, 1) and the
    wall-clock label read while instrument i is updated. */
module Simulation {
  import opened Types
  import opened Catalog

  /** The draw and the clock label consumed by one instrument's update. */
  datatype TickInput = TickInput(random: real, time: string)

  /** The relative price step for a draw: (random - 0.5) * 0.005. */
  function Delta(random: real): (d: real)
    ensures 0.0 <= random < 1.0 ==> -0.0025 <= d < 0.0025
  {
    (random - 0.5) * 0.005
  }

  /** `h.slice(1)`: the window without its oldest sample (empty stays empty). */
  function DropOldest(h: seq<Sample>): (r: seq<Sample>)
    ensures |r| == if h == [] then 0 else |h| - 1
    ensures h != [] ==> r == h[1..]
  {
    if h == [] then [] else h[1..]
  }

  /** One instrument's update within a tick. */
  function TickCurrency(c: Currency, input: TickInput): (r: Currency)
    ensures r.id == c.id && r.symbol == c.symbol && r.name == c.name
    ensures r.marketCap == c.marketCap && r.kind == c.kind
    ensures |r.history| == if c.history == [] then 1 else |c.history|
    ensures r.history[..|r.history| - 1] == DropOldest(c.history)
    ensures r.history[|r.history| - 1] == Sample(input.time, r.price)
  {
    var delta := Delta(input.random);
    var newPrice := c.price * (1.0 + delta);
    c.(price := newPrice,
       change24h := c.change24h + delta * 100.0,
       history := DropOldest(c.history) + [Sample(input.time, newPrice)])
  }

  /** The price moves by price times the step, and the 24-hour change moves by
      exactly the percentage the price moved. */
  lemma TickMovesPriceAndChange(c: Currency, input: TickInput)
    ensures TickCurrency(c, input).price - c.price == c.price * Delta(input.random)
    ensures (TickCurrency(c, input).change24h - c.change24h) * c.price ==
      100.0 * (TickCurrency(c, input).price - c.price)
    ensures TickCurrency(c, input).change24h == c.change24h + 100.0 * Delta(input.random)
  {
    var delta := Delta(input.random);
    assert c.price * (1.0 + delta) - c.price == c.price * delta;
    assert (delta * 100.0) * c.price == 100.0 * (c.price * delta);
  }

  /** A positive price stays positive and moves by less than a quarter percent. */
  lemma TickKeepsPricePositive(c: Currency, input: TickInput)
    requires c.price > 0.0 && 0.0 <= input.random < 1.0
    ensures 0.9975 * c.price <= TickCurrency(c, input).price < 1.0025 * c.price
    ensures TickCurrency(c, input).price > 0.0
  {
    var d := Delta(input.random);
    var moved := TickCurrency(c, input).price;
    assert moved == c.price * (1.0 + d);
    StepBounds(c.price, d, moved);
  }

  /** Scaling a positive price by 1 + d, with d a step in [-0.0025, 0.0025). */
  lemma StepBounds(p: real, d: real, moved: real)
    requires p > 0.0 && -0.0025 <= d < 0.0025 && moved == p * (1.0 + d)
    ensures 0.9975 * p <= moved < 1.0025 * p
  {
    var below, above := d + 0.0025, 0.0025 - d;
    ProductSign(p, below);
    ProductSign(p, above);
    assert moved - 0.9975 * p == p * below;
    assert 1.0025 * p - moved == p * above;
  }

  /** Two catalogs list the same instruments in the same order: ids, symbols,
      names, market caps and kinds agree position by position. */
  predicate SameListing(a: seq<Currency>, b: seq<Currency>) {
    && |a| == |b|
    && forall i :: 0 <= i < |a| ==>
      && a[i].id == b[i].id && a[i].symbol == b[i].symbol && a[i].name == b[i].name
      && a[i].marketCap == b[i].marketCap && a[i].kind == b[i].kind
  }

  /** The interval callback's updater: every instrument is updated from its own input. */
  function Tick(currencies: seq<Currency>, inputs: nat -> TickInput): (r: seq<Currency>)
    ensures SameListing(currencies, r)
    ensures forall i :: 0 <= i < |r| && currencies[i].history != [] ==>
      |r[i].history| == |currencies[i].history|
    ensures forall i :: 0 <= i < |r| ==> r[i] == TickCurrency(currencies[i], inputs(i))
  {
    var r := seq(|currencies|, i requires 0 <= i < |currencies| => TickCurrency(currencies[i], inputs(i)));
    assert forall i :: 0 <= i < |r| ==> r[i] == TickCurrency(currencies[i], inputs(i));
    assert SameListing(currencies, r) by {
      forall i | 0 <= i < |r|
        ensures r[i].id == currencies[i].id && r[i].symbol == currencies[i].symbol
        ensures r[i].name == currencies[i].name && r[i].marketCap == currencies[i].marketCap
        ensures r[i].kind == currencies[i].kind
      {
        assert r[i] == TickCurrency(currencies[i], inputs(i));
      }
    }
    r
  }

  /** The catalog after the given ticks, oldest tick first. */
  function Simulate(currencies: seq<Currency>, ticks: seq<nat -> TickInput>): (r: seq<Currency>)
    ensures |r| == |currencies|
    ensures SameListing(currencies, r)
    decreases |ticks|
  {
    if ticks == [] then currencies
    else Tick(Simulate(currencies, ticks[..|ticks| - 1]), ticks[|ticks| - 1])
  }

  /** However many ticks run, every window keeps its length and the ids stay distinct. */
  lemma {:induction false} SimulateKeepsShape(currencies: seq<Currency>, ticks: seq<nat -> TickInput>, n: nat)
    requires n > 0 && HistoriesHaveLength(currencies, n)
    ensures HistoriesHaveLength(Simulate(currencies, ticks), n)
    ensures DistinctIds(currencies) ==> DistinctIds(Simulate(currencies, ticks))
    decreases |ticks|
  {
    if ticks != [] {
      SimulateKeepsShape(currencies, ticks[..|ticks| - 1], n);
    }
  }

  /** After k ticks, with k at most the window length, the oldest part of each
      window is the original window with its first k samples dropped: samples
      leave in the order they arrived. */
  lemma {:induction false} SimulateSlidesWindow(currencies: seq<Currency>, ticks: seq<nat -> TickInput>, i: nat)
    requires i < |currencies| && |ticks| <= |currencies[i].history|
    ensures var h, h' := currencies[i].history, Simulate(currencies, ticks)[i].history;
      |h'| == |h| && h'[..|h| - |ticks|] == h[|ticks|..]
    decreases |ticks|
  {
    var h := currencies[i].history;
    if ticks != [] {
      var k := |ticks|;
      var earlier := ticks[..k - 1];
      assert |earlier| == k - 1;
      var before := Simulate(currencies, earlier);
      SimulateSlidesWindow(currencies, earlier, i);
      var hb := before[i].history;
      assert |hb| == |h| && hb[..|h| - (k - 1)] == h[k - 1..];
      TickSlidesHistory(before, ticks[k - 1], i);
      var after := Tick(before, ticks[k - 1]);
      assert Simulate(currencies, ticks) == after;
      SlideStep(h, hb, after[i].history, k);
    }
  }

  /** Instrument i on its own through the given ticks: each tick applies the
      single-instrument update with that instrument's input. */
  function Track(c: Currency, ticks: seq<nat -> TickInput>, i: nat): (r: Currency)
    ensures c.history != [] ==> |r.history| == |c.history|
    decreases |ticks|
  {
    if ticks == [] then c
    else TickCurrency(Track(c, ticks[..|ticks| - 1], i), ticks[|ticks| - 1](i))
  }

  /** Following one instrument on its own gives what the whole catalog gives it. */
  lemma {:induction false} SimulateTracks(currencies: seq<Currency>, ticks: seq<nat -> TickInput>, i: nat)
    requires i < |currencies|
    ensures Simulate(currencies, ticks)[i] == Track(currencies[i], ticks, i)
    decreases |ticks|
  {
    if ticks != [] {
      var earlier := ticks[..|ticks| - 1];
      SimulateTracks(currencies, earlier, i);
      assert Simulate(currencies, ticks)[i] == TickCurrency(Simulate(currencies, earlier)[i], ticks[|ticks| - 1](i));
    }
  }

  /** The newest samples, one by one: after k ticks, position |h| - k + j of
      instrument i's window holds tick j's clock label with the price right after
      tick j, for each of the last |h| ticks. With `SimulateSlidesWindow` this
      says the window stays ordered oldest to newest, however many ticks run. */
  lemma NewestSampleAt(currencies: seq<Currency>, ticks: seq<nat -> TickInput>, i: nat, j: nat)
    requires i < |currencies| && j < |ticks| && |ticks| - |currencies[i].history| <= j
    ensures var h, h' := currencies[i].history, Simulate(currencies, ticks)[i].history;
      |h'| == |h| &&
      h'[|h| - |ticks| + j] == Sample(ticks[j](i).time, Simulate(currencies, ticks[..j + 1])[i].price)
  {
    SimulateTracks(currencies, ticks, i);
    SimulateTracks(currencies, ticks[..j + 1], i);
    TrackSampleAt(currencies[i], ticks, i, j);
  }

  /** The same statement for one instrument's own run. */
  lemma TrackSampleAt(c: Currency, ticks: seq<nat -> TickInput>, i: nat, j: nat)
    requires j < |ticks| && |ticks| - |c.history| <= j
    ensures var n := |c.history|;
      |Track(c, ticks, i).history| == n &&
      Track(c, ticks, i).history[n - |ticks| + j] == Sample(ticks[j](i).time, Track(c, ticks[..j + 1], i).price)
  {
    TrackAppends(c, ticks, i, j);
    TrackMovesForward(c, ticks, i, j);
  }

  /** Right after tick j, its sample is the newest in the window. */
  lemma TrackAppends(c: Currency, ticks: seq<nat -> TickInput>, i: nat, j: nat)
    requires j < |ticks| && c.history != []
    ensures var r := Track(c, ticks[..j + 1], i);
      |r.history| == |c.history| && r.history[|c.history| - 1] == Sample(ticks[j](i).time, r.price)
  {
    var upTo := ticks[..j + 1];
    assert |upTo| == j + 1 && upTo[j] == ticks[j];
  }

  /** The ticks after tick j move its sample from the end of the window to
      position |h| - |ticks| + j. */
  lemma TrackMovesForward(c: Currency, ticks: seq<nat -> TickInput>, i: nat, j: nat)
    requires j < |ticks| && |ticks| - |c.history| <= j
    ensures var n := |c.history|;
      |Track(c, ticks, i).history| == n &&
      Track(c, ticks, i).history[n - |ticks| + j] == Track(c, ticks[..j + 1], i).history[n - 1]
  {
    WindowsMoveForward(c, ticks, i, j);
    WindowEnds(c, ticks, i, j);
  }

  /** The same statement over the run of windows. */
  lemma WindowsMoveForward(c: Currency, ticks: seq<nat -> TickInput>, i: nat, j: nat)
    requires j < |ticks| && |ticks| - |c.history| <= j
    ensures var w, n, k := Windows(c, ticks, i), |c.history|, |ticks|;
      |w[k]| == |w[j + 1]| == n && w[k][n - k + j] == w[j + 1][n - 1]
  {
    WindowsSlide(c, ticks, i);
    WalkToFront(Windows(c, ticks, i), |c.history|, j, |ticks|);
  }

  /** The last window is the whole run's, and window j + 1 is that of the first
      j + 1 ticks. */
  lemma WindowEnds(c: Currency, ticks: seq<nat -> TickInput>, i: nat, j: nat)
    requires j < |ticks|
    ensures var w := Windows(c, ticks, i);
      w[|ticks|] == Track(c, ticks, i).history && w[j + 1] == Track(c, ticks[..j + 1], i).history
  {
    assert ticks[..|ticks|] == ticks;
  }

  /** Window q is instrument i's window after the first q ticks. */
  function Windows(c: Currency, ticks: seq<nat -> TickInput>, i: nat): (r: seq<seq<Sample>>)
    ensures |r| == |ticks| + 1
    ensures forall q :: 0 <= q < |r| ==> r[q] == Track(c, ticks[..q], i).history
  {
    seq(|ticks| + 1, q requires 0 <= q <= |ticks| => Track(c, ticks[..q], i).history)
  }

  /** Each window is the one before it slid by one, all of the original length. */
  lemma WindowsSlide(c: Currency, ticks: seq<nat -> TickInput>, i: nat)
    requires c.history != []
    ensures Sliding(Windows(c, ticks, i), |c.history|)
  {
    var w, n := Windows(c, ticks, i), |c.history|;
    forall q | 0 <= q < |w|
      ensures |w[q]| == n
    {
    }
    forall q | 1 <= q < |w|
      ensures w[q][..n - 1] == w[q - 1][1..]
    {
      TrackSlides(c, ticks, i, q);
    }
  }

  /** Every window has length n > 0 and is the one before it with its oldest
      sample dropped and one sample appended. */
  predicate Sliding(windows: seq<seq<Sample>>, n: nat)
  {
    && n > 0
    && (forall q :: 0 <= q < |windows| ==> |windows[q]| == n)
    && (forall q :: 1 <= q < |windows| ==> windows[q][..n - 1] == windows[q - 1][1..])
  }

  /** Tick q - 1 slides the window left by the first q - 1 ticks. */
  lemma TrackSlides(c: Currency, ticks: seq<nat -> TickInput>, i: nat, q: nat)
    requires 1 <= q <= |ticks| && c.history != []
    ensures var before, after := Track(c, ticks[..q - 1], i).history, Track(c, ticks[..q], i).history;
      |after| == |before| == |c.history| && after[..|c.history| - 1] == before[1..]
  {
    var before := Track(c, ticks[..q - 1], i);
    assert Track(c, ticks[..q], i) == TickCurrency(before, ticks[q - 1](i)) by {
      assert ticks[..q][..q - 1] == ticks[..q - 1];
    }
  }

  /** A run of windows of length n, each the previous one slid by one: the
      newest sample of window j + 1 is at n - k + j in window k, as long as
      fewer than n windows followed it. */
  lemma {:induction false} WalkToFront(windows: seq<seq<Sample>>, n: nat, j: nat, k: nat)
    requires j < k < |windows| && k - j <= n && Sliding(windows, n)
    ensures |windows[k]| == |windows[j + 1]| == n && windows[k][n - k + j] == windows[j + 1][n - 1]
    decreases k
  {
    if k > j + 1 {
      WalkToFront(windows, n, j, k - 1);
      var before, after := windows[k - 1], windows[k];
      assert after[n - k + j] == after[..n - 1][n - k + j];
    }
  }

  /** A tick drops the oldest sample of a non-empty window and keeps its length. */
  lemma TickSlidesHistory(currencies: seq<Currency>, inputs: nat -> TickInput, i: nat)
    requires i < |currencies| && currencies[i].history != []
    ensures var h, h' := currencies[i].history, Tick(currencies, inputs)[i].history;
      |h'| == |h| && h'[..|h| - 1] == h[1..]
  {
    assert Tick(currencies, inputs)[i] == TickCurrency(currencies[i], inputs(i));
  }

  /** One more slide of a window that has already slid k - 1 times. */
  lemma SlideStep(h: seq<Sample>, hb: seq<Sample>, ha: seq<Sample>, k: nat)
    requires 1 <= k <= |h| && |hb| == |h| && |ha| == |h|
    requires hb[..|h| - (k - 1)] == h[k - 1..]
    requires ha[..|h| - 1] == hb[1..]
    ensures ha[..|h| - k] == h[k..]
  {
    calc {
      ha[..|h| - k];
      ha[..|h| - 1][..|h| - k];
      hb[1..][..|h| - k];
      hb[1..|h| - k + 1];
      hb[..|h| - (k - 1)][1..];
      h[k - 1..][1..];
      h[k..];
    }
  }

  /** With every draw in [0, 1), positive prices stay positive through any number of ticks. */
  lemma {:induction false} SimulateKeepsPricesPositive(currencies: seq<Currency>, ticks: seq<nat -> TickInput>)
    requires forall i :: 0 <= i < |currencies| ==> currencies[i].price > 0.0
    requires forall t, j :: 0 <= t < |ticks| ==> 0.0 <= ticks[t](j).random < 1.0
    ensures forall i :: 0 <= i < |Simulate(currencies, ticks)| ==> Simulate(currencies, ticks)[i].price > 0.0
    decreases |ticks|
  {
    if ticks != [] {
      var k := |ticks|;
      SimulateKeepsPricesPositive(currencies, ticks[..k - 1]);
      TickKeepsPricesPositive(Simulate(currencies, ticks[..k - 1]), ticks[k - 1]);
    }
  }

  /** One tick with draws in [0, 1) keeps every price positive. */
  lemma TickKeepsPricesPositive(currencies: seq<Currency>, inputs: nat -> TickInput)
    requires forall i :: 0 <= i < |currencies| ==> currencies[i].price > 0.0
    requires forall j :: 0.0 <= inputs(j).random < 1.0
    ensures forall i :: 0 <= i < |Tick(currencies, inputs)| ==> Tick(currencies, inputs)[i].price > 0.0
  {
    var after := Tick(currencies, inputs);
    forall i | 0 <= i < |after|
      ensures after[i].price > 0.0
    {
      TickKeepsPricePositive(currencies[i], inputs(i));
    }
  }
}
