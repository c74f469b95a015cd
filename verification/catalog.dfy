/** The seed catalog: seventeen instruments, each starting with a synthetic
    twenty-sample price history scattered within five percent of its seed price.
    The random-number source is a parameter: `random(k)` is the value returned
    by the k-th call of the platform's uniform generator. */
module Catalog {
  import opened Types
  import opened Text

  /** Number of samples in every instrument's history window. */
  const HistoryLength: nat := 20

  /** The label of the i-th seed sample, "i:00". */
  function TimeLabel(i: nat): string {
    NatToString(i) + ":00"
  }

  /** The labels are the hour-style strings of the seed data. */
  lemma TimeLabelExamples()
    ensures TimeLabel(0) == "0:00" && TimeLabel(7) == "7:00" && TimeLabel(19) == "19:00"
  {
    assert NatToString(19) == NatToString(1) + [DigitChar(9)];
  }

  /** The draws `random(offset)`, `random(offset + 1)`, ... as a fresh stream. */
  function Skip(random: nat -> real, offset: nat): nat -> real {
    (k: nat) => random(offset + k)
  }

  /** Scaling a positive base by 1 + x with x in [-0.05, 0.05) stays within five percent. */
  lemma ScaleWithinFivePercent(base: real, x: real)
    requires base > 0.0 && -0.05 <= x < 0.05
    ensures 0.95 * base <= base * (1.0 + x) < 1.05 * base
  {
    var scaled, below, above := base * (1.0 + x), x + 0.05, 0.05 - x;
    ProductSign(base, below);
    ProductSign(base, above);
    assert scaled - 0.95 * base == base * below;
    assert 1.05 * base - scaled == base * above;
  }

  /** A positive factor keeps the sign of the other factor. */
  lemma ProductSign(p: real, x: real)
    requires p > 0.0
    ensures x >= 0.0 ==> p * x >= 0.0
    ensures x > 0.0 ==> p * x > 0.0
  {
  }

  /** Sample i of a seed history: labelled "i:00", priced within five percent of
      `base` by the draw `draw`. */
  function MockSample(base: real, draw: real, i: nat): (r: Sample)
    ensures r.time == TimeLabel(i)
    ensures base > 0.0 && 0.0 <= draw < 1.0 ==> 0.95 * base <= r.price < 1.05 * base
  {
    var x := draw * 0.1 - 0.05;
    assert base > 0.0 && 0.0 <= draw < 1.0 ==> 0.95 * base <= base * (1.0 + x) < 1.05 * base by {
      if base > 0.0 && 0.0 <= draw < 1.0 {
        ScaleWithinFivePercent(base, x);
      }
    }
    Sample(TimeLabel(i), base * (1.0 + x))
  }

  /** A twenty-sample history around `base`; sample i consumes draw i. */
  function GenerateMockHistory(base: real, random: nat -> real): (r: seq<Sample>)
    ensures |r| == HistoryLength
    ensures forall i :: 0 <= i < |r| ==> r[i].time == TimeLabel(i)
    ensures forall i :: 0 <= i < |r| && base > 0.0 && 0.0 <= random(i) < 1.0 ==>
      0.95 * base <= r[i].price < 1.05 * base
  {
    var r := seq(HistoryLength, i requires 0 <= i < HistoryLength => MockSample(base, random(i), i));
    assert forall i :: 0 <= i < |r| ==> r[i] == MockSample(base, random(i), i);
    r
  }

  /** A seed entry: every field of an instrument except its history. */
  datatype Seed = Seed(
    id: string,
    symbol: string,
    name: string,
    price: real,
    change24h: real,
    marketCap: string,
    kind: Kind)

  /** The seed entries, in display order. */
  const Seeds: seq<Seed> := [
    Seed("bitcoin", "BTC", "Bitcoin", 64231.50, 2.45, "1.2T", Crypto),
    Seed("ethereum", "ETH", "Ethereum", 3452.12, -1.2, "412B", Crypto),
    Seed("solana", "SOL", "Solana", 142.85, 5.8, "62B", Crypto),
    Seed("shiba-inu", "SHIB", "Shiba Inu", 0.00002415, 12.4, "14.2B", Crypto),
    Seed("dogecoin", "DOGE", "Dogecoin", 0.1624, -4.2, "23.1B", Crypto),
    Seed("xrp", "XRP", "XRP Ripple", 0.5241, 0.8, "29B", Crypto),
    Seed("cardano", "ADA", "Cardano", 0.4512, -2.1, "16B", Crypto),
    Seed("avalanche", "AVAX", "Avalanche", 35.62, 3.4, "13.5B", Crypto),
    Seed("polkadot", "DOT", "Polkadot", 7.12, -0.5, "10.2B", Crypto),
    Seed("chainlink", "LINK", "Chainlink", 18.45, 6.2, "10.8B", Crypto),
    Seed("polygon", "MATIC", "Polygon", 0.7245, -1.8, "7.1B", Crypto),
    Seed("near-protocol", "NEAR", "NEAR Protocol", 6.84, 9.1, "7.3B", Crypto),
    Seed("eurusd", "EUR/USD", "Euro / US Dollar", 1.0842, 0.05, "N/A", Forex),
    Seed("gbpusd", "GBP/USD", "British Pound / US Dollar", 1.2654, -0.12, "N/A", Forex),
    Seed("usdjpy", "USD/JPY", "US Dollar / Yen", 156.42, 0.24, "N/A", Forex),
    Seed("gold", "XAU/USD", "Gold / US Dollar", 2321.40, 0.85, "14T", Forex),
    Seed("silver", "XAG/USD", "Silver / US Dollar", 28.42, 1.15, "1.4T", Forex)
  ]

  /** The instrument built from a seed entry and its history. */
  function FromSeed(s: Seed, history: seq<Sample>): Currency {
    Currency(s.id, s.symbol, s.name, s.price, s.change24h, s.marketCap, s.kind, history)
  }

  /** Entry k of the initial catalog: seed k with the twenty draws that follow
      the 20 * k consumed by the entries before it. */
  function InitialEntry(random: nat -> real, k: nat): (r: Currency)
    requires k < |Seeds|
    ensures r.id == Seeds[k].id && r.symbol == Seeds[k].symbol && r.name == Seeds[k].name
    ensures r.price == Seeds[k].price && r.change24h == Seeds[k].change24h
    ensures r.marketCap == Seeds[k].marketCap && r.kind == Seeds[k].kind
    ensures |r.history| == HistoryLength
    ensures forall i :: 0 <= i < |r.history| ==> r.history[i].time == TimeLabel(i)
    ensures forall i ::
      0 <= i < |r.history| && r.price > 0.0 && 0.0 <= random(HistoryLength * k + i) < 1.0 ==>
      0.95 * r.price <= r.history[i].price < 1.05 * r.price
  {
    var seed, draws := Seeds[k], Skip(random, HistoryLength * k);
    assert forall i :: draws(i) == random(HistoryLength * k + i);
    FromSeed(seed, GenerateMockHistory(seed.price, draws))
  }

  /** The instruments the session starts with, in seed order. Entry k's history
      is generated from entry k's own price, with the twenty draws that follow
      the 20 * k consumed by the entries before it. */
  function InitialCurrencies(random: nat -> real): (r: seq<Currency>)
    ensures |r| == |Seeds|
    ensures forall k :: 0 <= k < |r| ==>
      && r[k].id == Seeds[k].id && r[k].symbol == Seeds[k].symbol && r[k].name == Seeds[k].name
      && r[k].price == Seeds[k].price && r[k].change24h == Seeds[k].change24h
      && r[k].marketCap == Seeds[k].marketCap && r[k].kind == Seeds[k].kind
    ensures forall k :: 0 <= k < |r| ==> |r[k].history| == HistoryLength
    ensures forall k, i :: 0 <= k < |r| && 0 <= i < |r[k].history| ==>
      r[k].history[i].time == TimeLabel(i)
    ensures forall k, i ::
      0 <= k < |r| && 0 <= i < |r[k].history| &&
      r[k].price > 0.0 && 0.0 <= random(HistoryLength * k + i) < 1.0 ==>
      0.95 * r[k].price <= r[k].history[i].price < 1.05 * r[k].price
  {
    seq(|Seeds|, k requires 0 <= k < |Seeds| => InitialEntry(random, k))
  }

  /** No two instruments share an id. */
  predicate DistinctIds(cs: seq<Currency>) {
    forall i, j :: 0 <= i < j < |cs| ==> cs[i].id != cs[j].id
  }

  /** Every instrument's history window holds exactly `n` samples. */
  predicate HistoriesHaveLength(cs: seq<Currency>, n: nat) {
    forall i :: 0 <= i < |cs| ==> |cs[i].history| == n
  }

  lemma SeedIdsDistinct(random: nat -> real)
    ensures DistinctIds(InitialCurrencies(random))
  {
    assert forall i, j :: 0 <= i < j < |Seeds| ==> Seeds[i].id != Seeds[j].id;
  }

  /** Every seed price is strictly positive, so every seed instrument starts
      with a full window of samples near that price. */
  lemma SeedPricesPositive(random: nat -> real)
    ensures forall k :: 0 <= k < |InitialCurrencies(random)| ==> InitialCurrencies(random)[k].price > 0.0
  {
  }

  /** With draws in [0, 1), every seed sample lies within five percent of the
      price of the instrument it belongs to. */
  lemma SeedHistoriesNearPrice(random: nat -> real)
    requires forall k :: 0.0 <= random(k) < 1.0
    ensures forall c, i :: c in InitialCurrencies(random) && 0 <= i < |c.history| ==>
      0.95 * c.price <= c.history[i].price < 1.05 * c.price
  {
    SeedPricesPositive(random);
  }
}
