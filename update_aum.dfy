/**
 * scripts/update-aum.mjs: live market caps for the script's own ticker list,
 * fetched from one Yahoo host in chunks of 20 with a pause between chunks,
 * and an `etfs` row plus an `aum_history` row for every fund whose market cap
 * is a credible AUM.
 */
module UpdateAum {
  import opened Wrappers
  import opened Text
  import opened Chunking
  import opened Sorting
  import opened Quotes
  import opened CronAuth

  /** The script's own copy of the seed tickers. */
  const TICKERS := [
    "SPY", "IVV", "VOO", "VTI", "QQQ", "QQQM", "IWM", "VUG", "VTV", "ITOT", "SCHB", "SCHX", "RSP", "MGK",
    "XLK", "XLF", "XLE", "XLV", "XLI", "XLC", "VGT", "SOXX", "SMH", "IBB",
    "BND", "AGG", "VCIT", "LQD", "TLT", "SHY", "SGOV", "GOVT", "MUB", "HYG", "JNK",
    "GLD", "IAU", "SLV", "GDX", "USO", "PDBC",
    "IEFA", "VEA", "VWO", "EEM", "EFA", "FXI",
    "VNQ", "SCHH", "IYR",
    "ARKK", "ARKW", "IBIT", "FBTC", "GBTC", "BITO", "ETHA",
    "VYM", "DVY", "SCHD", "DGRO",
    "TQQQ", "SQQQ", "SPXU", "UPRO",
    "AOA", "AOR",
    "ESGU", "ESGV"]

  const CHUNK := 20
  /** Milliseconds of each pause between two chunk requests. */
  const DELAY_MS := 300
  /** A market cap at or below this is not trusted as AUM. */
  const AUM_FLOOR := 100000000.0

  /** The variables the script reads at start-up; `None` is an unset variable. */
  datatype Settings = Settings(
    publicUrl: Option<string>,   // NEXT_PUBLIC_SUPABASE_URL
    serviceKey: Option<string>,  // SUPABASE_SERVICE_KEY
    anonKey: Option<string>)     // NEXT_PUBLIC_SUPABASE_ANON_KEY

  /** The script goes on only with a non-empty URL and a non-empty key (`service ?? anon`). */
  predicate CanStart(st: Settings) {
    TruthyStr(st.publicUrl) && FirstSet(st.serviceKey, st.anonKey) != ""
  }

  const QUOTE_ENDPOINT := "https://query1.finance.yahoo.com/v7/finance/quote?symbols="
  const QUOTE_FIELDS := "&fields=regularMarketPrice,regularMarketChangePercent,marketCap,shortName"

  /** The query1 quote URL of one chunk. */
  function ChunkUrl(chunk: seq<string>): string {
    QUOTE_ENDPOINT + (if chunk == [] then "" else Join(chunk, ',')) + QUOTE_FIELDS
  }

  /** The dictionary each chunk contributes (`{}` for a failed request), in chunk order. */
  function ChunkMaps(chunks: seq<seq<string>>, yahoo: string -> Response): (ms: seq<map<string, Quote>>)
    ensures |ms| == |chunks|
    ensures forall i :: 0 <= i < |chunks| ==> ms[i] == MapOfResponse(yahoo(ChunkUrl(chunks[i])))
  {
    seq(|chunks|, i requires 0 <= i < |chunks| => MapOfResponse(yahoo(ChunkUrl(chunks[i]))))
  }

  lemma ChunkMapsSnoc(chunks: seq<seq<string>>, chunk: seq<string>, yahoo: string -> Response)
    ensures Merged(ChunkMaps(chunks + [chunk], yahoo))
            == Merged(ChunkMaps(chunks, yahoo)) + MapOfResponse(yahoo(ChunkUrl(chunk)))
  {
    var all := chunks + [chunk];
    var ms := ChunkMaps(all, yahoo);
    assert forall i :: 0 <= i < |chunks| ==> all[i] == chunks[i];
    assert ms[..|chunks|] == ChunkMaps(chunks, yahoo);
    assert ms[|chunks|] == MapOfResponse(yahoo(ChunkUrl(chunk)));
  }

  /** The merged dictionary for `tickers`. */
  function QuoteMapFor(tickers: seq<string>, yahoo: string -> Response): map<string, Quote> {
    Merged(ChunkMaps(Chunked(tickers, CHUNK), yahoo))
  }

  /**
   * The chunk loop: consecutive slices of 20 in order, each answer merged
   * into the dictionary, and a pause after every chunk but the last.
   */
  method FetchQuotes(tickers: seq<string>, yahoo: string -> Response)
    returns (quoteMap: map<string, Quote>, chunks: seq<seq<string>>, pauses: nat)
    ensures chunks == Chunked(tickers, CHUNK)
    ensures quoteMap == QuoteMapFor(tickers, yahoo)
    ensures pauses == if chunks == [] then 0 else |chunks| - 1
  {
    quoteMap, chunks, pauses := map[], [], 0;
    var i := 0;
    while i < |tickers|
      invariant CutUpTo(tickers, CHUNK, i, chunks)
      invariant quoteMap == Merged(ChunkMaps(chunks, yahoo))
      invariant pauses == if i < |tickers| || chunks == [] then |chunks| else |chunks| - 1
      decreases |tickers| - i
    {
      var chunk := Slice(tickers, i, i + CHUNK);
      CutStep(tickers, CHUNK, i, chunks);
      var quotes := MapOfResponse(yahoo(ChunkUrl(chunk)));
      ChunkMapsSnoc(chunks, chunk, yahoo);
      quoteMap := quoteMap + quotes;
      chunks := chunks + [chunk];
      assert quoteMap == Merged(ChunkMaps(chunks, yahoo));
      if i + CHUNK < |tickers| {
        pauses := pauses + 1;
      }
      i := i + CHUNK;
    }
    CutDone(tickers, CHUNK, i, chunks);
  }

  /** The AUM a quote supports: its market cap when it is strictly above the floor. */
  function AumOf(q: Quote): (aum: Option<real>)
    ensures aum.Some? <==> q.marketCap.Some? && q.marketCap.value > AUM_FLOOR
    ensures aum.Some? ==> aum == q.marketCap
  {
    if Truthy(q.marketCap) && q.marketCap.value > AUM_FLOOR then q.marketCap else None
  }

  /** A row of the `etfs` upsert (the update time is the clock's and is left out). */
  datatype EtfRow = EtfRow(ticker: string, aum: real, price: Option<real>, changePct: Option<real>)

  /** A row of the `aum_history` upsert for `date`. */
  datatype HistoryRow = HistoryRow(ticker: string, date: string, aum: real, price: Option<real>)

  /** The ticker has a quote with a credible AUM. */
  predicate HasAum(qm: map<string, Quote>, ticker: string) {
    ticker in qm && AumOf(qm[ticker]).Some?
  }

  function EtfRowOf(qm: map<string, Quote>, ticker: string): (row: EtfRow)
    requires HasAum(qm, ticker)
    ensures row.ticker == ticker && qm[ticker].marketCap == Some(row.aum) && row.aum > AUM_FLOOR
    ensures row.price == qm[ticker].price && row.changePct == qm[ticker].changePct
  {
    var q := qm[ticker];
    EtfRow(ticker, AumOf(q).value, q.price, q.changePct)
  }

  /** The `etfs` rows, in ticker order. */
  function EtfRows(tickers: seq<string>, qm: map<string, Quote>): (rows: seq<EtfRow>)
    ensures |rows| <= |tickers|
  {
    if tickers == [] then []
    else
      var front := EtfRows(tickers[..|tickers| - 1], qm);
      var t := tickers[|tickers| - 1];
      if HasAum(qm, t) then front + [EtfRowOf(qm, t)] else front
  }

  /** The `aum_history` rows for `today`, in ticker order. */
  function HistoryRows(tickers: seq<string>, qm: map<string, Quote>, today: string): seq<HistoryRow> {
    if tickers == [] then []
    else
      var front := HistoryRows(tickers[..|tickers| - 1], qm, today);
      var t := tickers[|tickers| - 1];
      if HasAum(qm, t) then front + [HistoryRow(t, today, AumOf(qm[t]).value, qm[t].price)] else front
  }

  /** The two row lists name the same tickers in the same order, with equal AUM and price. */
  lemma {:induction false} RowsAligned(tickers: seq<string>, qm: map<string, Quote>, today: string)
    ensures |HistoryRows(tickers, qm, today)| == |EtfRows(tickers, qm)|
    ensures forall i :: 0 <= i < |EtfRows(tickers, qm)| ==>
              var e := EtfRows(tickers, qm)[i];
              HistoryRows(tickers, qm, today)[i] == HistoryRow(e.ticker, today, e.aum, e.price)
  {
    if tickers != [] {
      RowsAligned(tickers[..|tickers| - 1], qm, today);
    }
  }

  /** The reference definition: keep the tickers with a credible AUM, then map each to its row. */
  lemma {:induction false} EtfRowsAreFilteredTickers(tickers: seq<string>, qm: map<string, Quote>)
    ensures EtfRows(tickers, qm) == RowsOf(qm, Filter(tickers, t => HasAum(qm, t)))
  {
    if tickers != [] {
      var front, t := tickers[..|tickers| - 1], tickers[|tickers| - 1];
      FilterSnoc(tickers, t => HasAum(qm, t));
      EtfRowsAreFilteredTickers(front, qm);
      if HasAum(qm, t) {
        RowsOfSnoc(qm, Filter(front, t => HasAum(qm, t)), t);
      }
    }
  }

  /** One row per ticker, in order. */
  function RowsOf(qm: map<string, Quote>, ts: seq<string>): (rows: seq<EtfRow>)
    requires forall i :: 0 <= i < |ts| ==> HasAum(qm, ts[i])
    ensures |rows| == |ts| && forall i :: 0 <= i < |ts| ==> rows[i] == EtfRowOf(qm, ts[i])
  {
    seq(|ts|, i requires 0 <= i < |ts| => EtfRowOf(qm, ts[i]))
  }

  lemma RowsOfSnoc(qm: map<string, Quote>, ts: seq<string>, t: string)
    requires forall i :: 0 <= i < |ts| ==> HasAum(qm, ts[i])
    requires HasAum(qm, t)
    ensures RowsOf(qm, ts + [t]) == RowsOf(qm, ts) + [EtfRowOf(qm, t)]
  {
  }

  /** A ticker without a quote, or whose market cap is missing or at most the floor, gets no row. */
  lemma {:induction false} NoAumNoRow(tickers: seq<string>, qm: map<string, Quote>, ticker: string)
    requires !HasAum(qm, ticker)
    ensures forall r :: r in EtfRows(tickers, qm) ==> r.ticker != ticker
  {
    if tickers != [] {
      NoAumNoRow(tickers[..|tickers| - 1], qm, ticker);
    }
  }

  /** The row loop of `main`, pushing into both lists. */
  method BuildRows(tickers: seq<string>, qm: map<string, Quote>, today: string)
    returns (etfRows: seq<EtfRow>, historyRows: seq<HistoryRow>)
    ensures etfRows == EtfRows(tickers, qm)
    ensures historyRows == HistoryRows(tickers, qm, today)
  {
    etfRows, historyRows := [], [];
    for i := 0 to |tickers|
      invariant etfRows == EtfRows(tickers[..i], qm)
      invariant historyRows == HistoryRows(tickers[..i], qm, today)
    {
      assert tickers[..i + 1][..i] == tickers[..i];
      var ticker := tickers[i];
      if ticker !in qm {
        continue;
      }
      var q := qm[ticker];
      var aum := AumOf(q);
      var price := q.price;
      if aum.Some? {
        etfRows := etfRows + [EtfRow(ticker, aum.value, price, q.changePct)];
        historyRows := historyRows + [HistoryRow(ticker, today, aum.value, price)];
      }
    }
    assert tickers[..|tickers|] == tickers;
  }

  /** What a run of the script did. */
  datatype Report =
    | Exited    // missing settings: soft exit before any request
    | Done(quotes: nat, pauses: nat, etfRows: seq<EtfRow>, historyRows: seq<HistoryRow>,
           etfError: Option<string>, historyError: Option<string>)

  /**
   * `main`.  `yahoo` answers each quote URL, `today` is the run's date, and
   * the two upserts report an error message, if any; an empty row list is
   * never sent.
   */
  method Run(st: Settings, yahoo: string -> Response, today: string,
             upsertEtfs: seq<EtfRow> -> Option<string>, upsertHistory: seq<HistoryRow> -> Option<string>)
    returns (report: Report)
    ensures report.Exited? <==> !CanStart(st)
    ensures report.Done? ==>
              var qm := QuoteMapFor(TICKERS, yahoo);
              && report.quotes == |qm.Keys|
              && report.pauses == |Chunked(TICKERS, CHUNK)| - 1
              && report.etfRows == EtfRows(TICKERS, qm)
              && report.historyRows == HistoryRows(TICKERS, qm, today)
              && report.etfError == (if report.etfRows == [] then None else upsertEtfs(report.etfRows))
              && report.historyError == (if report.historyRows == [] then None else upsertHistory(report.historyRows))
  {
    if !CanStart(st) {
      return Exited;
    }
    var quoteMap, chunks, pauses := FetchQuotes(TICKERS, yahoo);
    var etfRows, historyRows := BuildRows(TICKERS, quoteMap, today);
    var etfError, historyError := None, None;
    if |etfRows| > 0 {
      etfError := upsertEtfs(etfRows);
    }
    if |historyRows| > 0 {
      historyError := upsertHistory(historyRows);
    }
    report := Done(|quoteMap.Keys|, pauses, etfRows, historyRows, etfError, historyError);
  }

  /** The script's list has 69 tickers, so it makes four requests and three pauses. */
  lemma FourRequests()
    ensures |TICKERS| == 69
    ensures |Chunked(TICKERS, CHUNK)| == 4
  {
    ChunkCount(TICKERS, CHUNK);
  }
}
