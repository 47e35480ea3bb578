/**
 * The fund record and the chunking of the curated ticker universe
 * (`ALL_TICKERS`, `TICKER_CHUNKS`).  The curated seed table itself is data,
 * so the operations take it as a parameter.
 */
module EtfData {
  import opened Wrappers
  import opened Chunking

  /** One fund: the curated static fields and the live quote fields filled in at request time. */
  datatype Etf = Etf(
    ticker: string,
    name: string,
    issuer: string,
    category: string,
    subCategory: Option<string>,
    aum: real,
    expenseRatio: real,
    inceptionDate: string,
    exchange: string,
    price: Option<real>,
    change: Option<real>,
    changePct: Option<real>,
    volume: Option<real>)

  /** `SEED_ETFS.map(e => e.ticker)`. */
  function AllTickers(seeds: seq<Etf>): (ts: seq<string>)
    ensures |ts| == |seeds|
    ensures forall i :: 0 <= i < |seeds| ==> ts[i] == seeds[i].ticker
  {
    seq(|seeds|, i requires 0 <= i < |seeds| => seeds[i].ticker)
  }
}
