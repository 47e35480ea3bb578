/**
 * GET /api/etfs: the curated universe enriched with live quotes fetched in
 * chunks of 20 tickers, largest AUM first.
 */
module EtfsRoute {
  import opened Wrappers
  import opened Chunking
  import opened Sorting
  import opened Quotes
  import opened EtfData

  const QUOTE_CHUNK: nat := 20
  /** A market cap at or below this is not trusted as AUM. */
  const AUM_FLOOR: real := 100000000.0

  /** One seed fund with its live quote: four live fields copied, AUM overridden by a credible market cap. */
  function Enrich(etf: Etf, q: Option<Quote>): (e: Etf)
    ensures e.ticker == etf.ticker && e.name == etf.name && e.issuer == etf.issuer
    ensures e.category == etf.category && e.subCategory == etf.subCategory
    ensures e.expenseRatio == etf.expenseRatio && e.inceptionDate == etf.inceptionDate && e.exchange == etf.exchange
    ensures q.None? ==> e.price.None? && e.change.None? && e.changePct.None? && e.volume.None? && e.aum == etf.aum
    ensures q.Some? ==> e.price == q.value.price && e.change == q.value.change
    ensures q.Some? ==> e.changePct == q.value.changePct && e.volume == q.value.volume
    ensures e.aum == etf.aum || (q.Some? && q.value.marketCap == Some(e.aum) && e.aum > AUM_FLOOR)
  {
    var aum := ResolveAum(etf.aum, q, AUM_FLOOR);
    match q
    case None => etf.(price := None, change := None, changePct := None, volume := None, aum := aum)
    case Some(x) => etf.(price := x.price, change := x.change, changePct := x.changePct, volume := x.volume, aum := aum)
  }

  /** The dictionary of quotes for `tickers`, one request per chunk, merged in chunk order. */
  function QuoteMapFor(tickers: seq<string>, fetch: seq<string> -> Response): map<string, Quote> {
    var chunks := Chunked(tickers, QUOTE_CHUNK);
    Merged(seq(|chunks|, i requires 0 <= i < |chunks| => MapOfResponse(fetch(chunks[i]))))
  }

  function EnrichAll(seeds: seq<Etf>, qm: map<string, Quote>): (r: seq<Etf>)
    ensures |r| == |seeds|
    ensures forall i :: 0 <= i < |seeds| ==> r[i] == Enrich(seeds[i], Lookup(qm, seeds[i].ticker))
  {
    seq(|seeds|, i requires 0 <= i < |seeds| => Enrich(seeds[i], Lookup(qm, seeds[i].ticker)))
  }

  function AumOf(e: Etf): real { e.aum }

  /** The quote requests: the tickers in chunks of 20, every chunk's answer merged into one map. */
  method FetchQuoteMap(tickers: seq<string>, fetch: seq<string> -> Response) returns (quoteMap: map<string, Quote>)
    ensures quoteMap == QuoteMapFor(tickers, fetch)
  {
    var chunks := Cut(tickers, QUOTE_CHUNK);
    var maps := seq(|chunks|, i requires 0 <= i < |chunks| => MapOfResponse(fetch(chunks[i])));
    quoteMap := MergeQuoteMaps(maps);
  }

  /**
   * The handler: the enriched funds, every seed exactly once, ordered by AUM
   * from largest to smallest (ties keep the curated order).
   */
  method Get(seeds: seq<Etf>, fetch: seq<string> -> Response) returns (data: seq<Etf>)
    ensures data == Sort(EnrichAll(seeds, QuoteMapFor(AllTickers(seeds), fetch)), Desc(AumOf))
    ensures multiset(data) == multiset(EnrichAll(seeds, QuoteMapFor(AllTickers(seeds), fetch)))
    ensures forall i, j :: 0 <= i < j < |data| ==> data[i].aum >= data[j].aum
  {
    var quoteMap := FetchQuoteMap(AllTickers(seeds), fetch);
    var enriched := EnrichAll(seeds, quoteMap);
    data := Sort(enriched, Desc(AumOf));
    SortedDesc(enriched, AumOf);
  }
}
