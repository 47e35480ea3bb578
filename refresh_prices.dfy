/**
 * POST /api/cron/refresh-prices: the tickers of the `etfs` table, their
 * Yahoo quotes fetched in chunks of 20 with the query2 -> query1 host
 * fallback, and a price row written for every ticker with a usable price.
 */
module RefreshPrices {
  import opened Wrappers
  import opened Text
  import opened Chunking
  import opened Sorting
  import opened Quotes
  import opened CronAuth

  const CHUNK := 20
  /** The quote hosts, in the order they are tried. */
  const HOSTS := ["query2", "query1"]
  const FIELDS := "regularMarketPrice,regularMarketChangePercent,marketCap,shortName"

  /** `tickers.join(',')`. */
  function Symbols(tickers: seq<string>): string {
    if tickers == [] then "" else Join(tickers, ',')
  }

  /** The quote URL for one chunk on one host. */
  function QuoteUrl(host: string, tickers: seq<string>): (url: string)
    ensures StartsWith(url, "https://" + host + ".finance.yahoo.com/v7/finance/quote?symbols=")
  {
    var prefix := "https://" + host + ".finance.yahoo.com/v7/finance/quote?symbols=";
    var url := prefix + Symbols(tickers) + "&fields=" + FIELDS;
    assert url[..|prefix|] == prefix;
    url
  }

  /** The answers of every host, in host order, for one chunk; `yahoo` answers each URL. */
  function HostResponses(tickers: seq<string>, yahoo: string -> Response): (rs: seq<Response>)
    ensures |rs| == |HOSTS|
    ensures forall i :: 0 <= i < |HOSTS| ==> rs[i] == yahoo(QuoteUrl(HOSTS[i], tickers))
  {
    seq(|HOSTS|, i requires 0 <= i < |HOSTS| => yahoo(QuoteUrl(HOSTS[i], tickers)))
  }

  /** `fetchYahooQuotes`, specified: the dictionary of the first host that answered with quotes. */
  function ChunkQuotes(tickers: seq<string>, yahoo: string -> Response): map<string, Quote> {
    QuoteMapOf(FirstNonEmpty(HostResponses(tickers, yahoo)))
  }

  /** A dictionary of quotes is empty exactly when there were no quotes to build it from. */
  lemma QuoteMapOfEmpty(quotes: seq<Quote>)
    ensures QuoteMapOf(quotes) == map[] <==> quotes == []
  {
    if quotes != [] {
      assert quotes[0].symbol in QuoteMapOf(quotes);
    }
  }

  /**
   * `fetchYahooQuotes`: hosts in order, a failed or empty answer moves on to
   * the next; the chunk contributes nothing when no host had quotes.
   */
  method FetchYahooQuotes(tickers: seq<string>, yahoo: string -> Response) returns (m: map<string, Quote>)
    ensures m == ChunkQuotes(tickers, yahoo)
    ensures m == map[] <==>
              forall i :: 0 <= i < |HOSTS| ==>
                var r := yahoo(QuoteUrl(HOSTS[i], tickers)); !(r.Answered? && |r.result| > 0)
  {
    var responses := HostResponses(tickers, yahoo);
    var quotes := TryHosts(responses);
    m := QuoteMapOf(quotes);
    FirstNonEmptyChoice(responses);
    QuoteMapOfEmpty(quotes);
  }

  /** The merged dictionary for all tickers: one host-fallback fetch per chunk of 20, merged in chunk order. */
  function QuoteMapFor(tickers: seq<string>, yahoo: string -> Response): map<string, Quote> {
    var chunks := Chunked(tickers, CHUNK);
    Merged(seq(|chunks|, i requires 0 <= i < |chunks| => ChunkQuotes(chunks[i], yahoo)))
  }

  /** A row of the `etfs` upsert: ticker, price and change percent; never an AUM. */
  datatype PriceRow = PriceRow(ticker: string, price: real, changePct: Option<real>)

  /** The ticker has a quote whose price is truthy (present and non-zero). */
  predicate Priced(qm: map<string, Quote>, ticker: string) {
    ticker in qm && Truthy(qm[ticker].price)
  }

  /** The row for a priced ticker; `change_pct` stays unset when the quote has none. */
  function PriceRowOf(qm: map<string, Quote>, ticker: string): (row: PriceRow)
    requires Priced(qm, ticker)
    ensures row.ticker == ticker && row.price == qm[ticker].price.value && row.price != 0.0
    ensures row.changePct == qm[ticker].changePct
  {
    PriceRow(ticker, qm[ticker].price.value, qm[ticker].changePct)
  }

  /** The rows for `tickers`, in ticker order, skipping a missing quote or a falsy price. */
  function PriceRows(tickers: seq<string>, qm: map<string, Quote>): (rows: seq<PriceRow>)
    ensures |rows| <= |tickers|
  {
    if tickers == [] then []
    else
      var front := PriceRows(tickers[..|tickers| - 1], qm);
      var t := tickers[|tickers| - 1];
      if Priced(qm, t) then front + [PriceRowOf(qm, t)] else front
  }

  /** The reference definition: keep the priced tickers, then map each to its row. */
  lemma {:induction false} PriceRowsAreFilteredTickers(tickers: seq<string>, qm: map<string, Quote>)
    ensures var kept := Filter(tickers, t => Priced(qm, t));
            PriceRows(tickers, qm) == seq(|kept|, i requires 0 <= i < |kept| => PriceRowOf(qm, kept[i]))
  {
    if tickers != [] {
      var front, t := tickers[..|tickers| - 1], tickers[|tickers| - 1];
      FilterSnoc(tickers, t => Priced(qm, t));
      PriceRowsAreFilteredTickers(front, qm);
      var before := Filter(front, t => Priced(qm, t));
      var rows := seq(|before|, i requires 0 <= i < |before| => PriceRowOf(qm, before[i]));
      if Priced(qm, t) {
        var kept := before + [t];
        assert seq(|kept|, i requires 0 <= i < |kept| => PriceRowOf(qm, kept[i])) == rows + [PriceRowOf(qm, t)];
      }
    }
  }

  /** Every row belongs to a requested, priced ticker and agrees with its quote; every priced ticker has a row. */
  lemma {:induction false} PriceRowsMeaning(tickers: seq<string>, qm: map<string, Quote>)
    ensures forall r :: r in PriceRows(tickers, qm) ==>
              r.ticker in tickers && Priced(qm, r.ticker) && r == PriceRowOf(qm, r.ticker)
    ensures forall t :: t in tickers && Priced(qm, t) ==> PriceRowOf(qm, t) in PriceRows(tickers, qm)
  {
    if tickers != [] {
      var front := tickers[..|tickers| - 1];
      PriceRowsMeaning(front, qm);
      assert tickers == front + [tickers[|tickers| - 1]];
    }
  }

  /** The row loop of the handler. */
  method BuildPriceRows(tickers: seq<string>, qm: map<string, Quote>) returns (rows: seq<PriceRow>)
    ensures rows == PriceRows(tickers, qm)
  {
    rows := [];
    for i := 0 to |tickers|
      invariant rows == PriceRows(tickers[..i], qm)
    {
      assert tickers[..i + 1][..i] == tickers[..i];
      var ticker := tickers[i];
      if ticker !in qm {
        continue;
      }
      var price := qm[ticker].price;
      if !Truthy(price) {
        continue;
      }
      rows := rows + [PriceRow(ticker, price.value, qm[ticker].changePct)];
    }
    assert tickers[..|tickers|] == tickers;
  }

  /** The answer of the endpoint. */
  datatype Outcome =
    | Unauthorized                          // 401
    | NotConfigured                         // 500, missing database settings
    | ReadFailed(message: string)           // 500, the ticker list could not be read
    | NoEtfs                                // `updated: 0` with a hint to import first
    | Refreshed(tickers: nat, quotes: nat, updated: nat, history: nat,
                etfErr: Option<string>, histErr: Option<string>)

  /**
   * The handler.  `db` is the result of reading the `ticker` column (the
   * database applying its 1000-row limit): the tickers, or an error with its
   * message when there is one.  `yahoo` answers each quote URL; `upsert`
   * writes the price rows and reports an error message, if any.  `written`
   * are the rows sent to the database.
   */
  method Post(authorization: Option<string>, env: Env, db: Result<seq<string>, Option<string>>,
              yahoo: string -> Response, upsert: seq<PriceRow> -> Option<string>)
    returns (out: Outcome, written: seq<PriceRow>)
    ensures out.Unauthorized? <==> !Authorized(env.cronSecret, authorization)
    ensures out.NotConfigured? <==> Authorized(env.cronSecret, authorization) && !Configured(env)
    ensures out.ReadFailed? <==> Authorized(env.cronSecret, authorization) && Configured(env) && db.Err?
    ensures out.ReadFailed? ==> out.message == db.error.GetOr("DB fetch failed")
    ensures out.NoEtfs? <==> Authorized(env.cronSecret, authorization) && Configured(env) && db == Ok([])
    ensures out.Refreshed? ==>
              var tickers := db.value;
              var qm := QuoteMapFor(tickers, yahoo);
              && out.tickers == |tickers|
              && out.quotes == |qm.Keys|
              && written == PriceRows(tickers, qm)
              && out.updated == |written|
              && out.history == 0 && out.histErr.None?
              && out.etfErr == (if written == [] then None else upsert(written))
    ensures out.Refreshed? ==> out.updated <= out.tickers
    ensures !out.Refreshed? ==> written == []
  {
    written := [];
    if !Authorized(env.cronSecret, authorization) {
      return Unauthorized, written;
    }
    if !Configured(env) {
      return NotConfigured, written;
    }
    if db.Err? {
      return ReadFailed(db.error.GetOr("DB fetch failed")), written;
    }
    var tickers := db.value;
    if |tickers| == 0 {
      return NoEtfs, written;
    }
    var chunks := Cut(tickers, CHUNK);
    var maps := FetchAll(chunks, yahoo);
    var quoteMap := MergeQuoteMaps(maps);
    written := BuildPriceRows(tickers, quoteMap);
    var etfErr: Option<string> := None;
    if |written| > 0 {
      etfErr := upsert(written);
    }
    // No history rows are ever built, so the history upsert never runs.
    out := Refreshed(|tickers|, |quoteMap.Keys|, |written|, 0, etfErr, None);
  }

  /** One host-fallback fetch per chunk (`Promise.all` keeps chunk order). */
  method FetchAll(chunks: seq<seq<string>>, yahoo: string -> Response) returns (maps: seq<map<string, Quote>>)
    ensures maps == seq(|chunks|, i requires 0 <= i < |chunks| => ChunkQuotes(chunks[i], yahoo))
  {
    maps := [];
    for i := 0 to |chunks|
      invariant |maps| == i
      invariant forall j :: 0 <= j < i ==> maps[j] == ChunkQuotes(chunks[j], yahoo)
    {
      var m := FetchYahooQuotes(chunks[i], yahoo);
      maps := maps + [m];
    }
  }
}
