/** The records of the dashboard's state: instruments with their rolling price
    history, portfolio positions, the view selector and the interface language. */
module Types {

  /** An instrument's category. */
  datatype Kind = Crypto | Forex

  /** One point of an instrument's rolling history: a time label and a price. */
  datatype Sample = Sample(time: string, price: real)

  /** A tracked instrument. `change24h` is in percentage points; `marketCap` is
      a free-form label such as "1.2T" or "N/A". */
  datatype Currency = Currency(
    id: string,
    symbol: string,
    name: string,
    price: real,
    change24h: real,
    marketCap: string,
    kind: Kind,
    history: seq<Sample>)

  /** A synthetic holding: `addedAt` is the clock reading, in milliseconds, at
      which the position was first created. */
  datatype PortfolioItem = PortfolioItem(id: string, amount: real, addedAt: int)

  /** Which subset of the catalog the main table shows. */
  datatype ViewMode = Market | Portfolio | Watchlist | Analysis

  /** The two interface languages. */
  datatype Language = EN | TR
}
