/**
 * scripts/import-all-etfs.mjs: every exchange-listed ticker from the SEC
 * registry, checked against Yahoo in chunks of 20, the funds Yahoo calls
 * ETFs mapped into the system's taxonomy and written to `etfs` in batches of
 * 200, plus one AUM snapshot row per fund with a credible market cap.
 */
module ImportAllEtfs {
  import opened Wrappers
  import opened Text
  import opened Chunking
  import opened Patterns
  import opened Quotes

  const CHUNK := 20
  const BATCH := 200
  /** Milliseconds of the pause after each chunk request. */
  const DELAY_MS := 350
  /** A market cap at or below this is not trusted as AUM (a lower floor than elsewhere). */
  const AUM_FLOOR := 100000.0

  /** A category and a sub-category of the system's taxonomy. */
  datatype Taxon = Taxon(category: string, subCategory: string)

  function AnyOf(words: seq<string>, category: string, sub: string): Rule<Taxon> {
    Rule([Lits(words)], Taxon(category, sub))
  }

  function BothOf(a: string, b: string, sub: string): Rule<Taxon> {
    Rule([Lits([a]), Lits([b])], Taxon("US Equity", sub))
  }

  /** The `mapCategory` chain, in source order; every test is a substring test on the lower-cased text. */
  const CATEGORY_RULES: seq<Rule<Taxon>> := [
    BothOf("large", "blend", "Large Cap Blend"),
    BothOf("large", "growth", "Large Cap Growth"),
    BothOf("large", "value", "Large Cap Value"),
    BothOf("mid", "blend", "Mid Cap Blend"),
    BothOf("mid", "growth", "Mid Cap Growth"),
    BothOf("mid", "value", "Mid Cap Value"),
    BothOf("small", "blend", "Small Cap Blend"),
    BothOf("small", "growth", "Small Cap Growth"),
    BothOf("small", "value", "Small Cap Value"),
    AnyOf(["dividend", "income"], "US Equity", "Dividend"),
    AnyOf(["equity", "stock"], "US Equity", "US Equity"),
    AnyOf(["emerging"], "International", "Emerging Markets"),
    AnyOf(["foreign", "world", "eafe", "international"], "International", "Developed Markets"),
    AnyOf(["china"], "International", "China"),
    AnyOf(["japan"], "International", "Japan"),
    AnyOf(["europe"], "International", "Europe"),
    AnyOf(["india"], "International", "India"),
    AnyOf(["ultrashort", "ultra short", "money market"], "Fixed Income", "Ultra Short"),
    AnyOf(["short-term bond", "short term bond"], "Fixed Income", "Short-Term Bond"),
    AnyOf(["long-term bond", "long term bond"], "Fixed Income", "Long-Term Bond"),
    AnyOf(["high yield", "junk"], "Fixed Income", "High Yield"),
    AnyOf(["muni", "municipal"], "Fixed Income", "Municipal"),
    AnyOf(["treasury", "government"], "Fixed Income", "Treasury"),
    AnyOf(["corporate", "corp"], "Fixed Income", "Corp Bond"),
    AnyOf(["inflation", "tips"], "Fixed Income", "Inflation-Protected"),
    AnyOf(["bond", "fixed"], "Fixed Income", "Broad Bond"),
    AnyOf(["real estate", "reit"], "Real Estate", "Diversified REIT"),
    AnyOf(["technology", "tech"], "Sector", "Technology"),
    AnyOf(["financial", "bank"], "Sector", "Financials"),
    AnyOf(["health", "biotech", "pharma"], "Sector", "Health Care"),
    AnyOf(["energy"], "Sector", "Energy"),
    AnyOf(["utilities"], "Sector", "Utilities"),
    AnyOf(["consumer"], "Sector", "Consumer"),
    AnyOf(["industrial"], "Sector", "Industrials"),
    AnyOf(["material"], "Sector", "Materials"),
    AnyOf(["semiconductor"], "Sector", "Semiconductors"),
    AnyOf(["communication"], "Sector", "Comm. Services"),
    AnyOf(["precious metal", "gold", "silver"], "Commodities", "Precious Metals"),
    AnyOf(["commodit", "natural resource", "oil", "energy limited"], "Commodities", "Broad"),
    AnyOf(["digital", "crypto", "bitcoin", "blockchain"], "Digital Assets", "Digital Assets"),
    AnyOf(["leveraged", "2x", "3x", "ultra pro"], "Leveraged", "Leveraged"),
    AnyOf(["inverse", "short "], "Leveraged", "Inverse"),
    AnyOf(["allocation", "target", "retirement", "multi"], "Multi-Asset", "Allocation"),
    AnyOf(["esg", "socially", "sustainable"], "ESG", "ESG")]

  /**
   * `mapCategory(ycat)`: the first rule that fires on the lower-cased Yahoo
   * category; otherwise `Thematic` with the raw text (or `Other`) as the
   * sub-category.  An absent category is the empty string.
   */
  function MapCategory(rules: seq<Rule<Taxon>>, ycat: Option<string>): Taxon {
    match FirstRule(rules, Lower(ycat.GetOr("")))
    case Some(t) => t
    case None => Taxon("Thematic", OrStr(ycat, "Other"))
  }

  /** A category naming both `large` and `blend` is always Large Cap Blend: that rule comes first. */
  lemma LargeBlendFirst(ycat: string)
    requires Contains(Lower(ycat), "large") && Contains(Lower(ycat), "blend")
    ensures MapCategory(CATEGORY_RULES, Some(ycat)) == Taxon("US Equity", "Large Cap Blend")
  {
    var c := Lower(ycat);
    LitMatches(c, "large");
    LitMatches(c, "blend");
    assert Lits(["large"]) == [Lit("large")];
    assert Lits(["blend"]) == [Lit("blend")];
    FirstRuleAt(CATEGORY_RULES, c, 0);
  }

  /** Text that no rule recognises keeps its own wording as the sub-category, or `Other` when empty. */
  lemma UnknownCategoryIsThematic(rules: seq<Rule<Taxon>>, ycat: Option<string>)
    requires forall i :: 0 <= i < |rules| ==> !Fires(Lower(ycat.GetOr("")), rules[i])
    ensures MapCategory(rules, ycat).category == "Thematic"
    ensures MapCategory(rules, ycat).subCategory == (if ycat.None? || ycat.value == "" then "Other" else ycat.value)
  {
  }

  /**
   * `mapExchange(code, fullName)`: NYSE Arca is recognised before NASDAQ,
   * CBOE and plain NYSE; anything else is shown as `fullName || code ||
   * 'Unknown'`.  Absent arguments are empty strings.
   */
  function MapExchange(code: string, fullName: string): (ex: string)
    ensures var n := Lower(if fullName != "" then fullName else code);
            && (Contains(n, "nyse arca") || code == "PCX" ==> ex == "NYSE Arca")
            && (ex == "NYSE" ==> Contains(n, "nyse") || code == "NYQ")
            && (ex !in {"NYSE Arca", "NASDAQ", "CBOE", "NYSE"} ==>
                  ex == (if fullName != "" then fullName else if code != "" then code else "Unknown"))
  {
    var n := Lower(if fullName != "" then fullName else code);
    if Contains(n, "nyse arca") || code == "PCX" then "NYSE Arca"
    else if Contains(n, "nasdaq") || code == "NMS" || code == "NGM" then "NASDAQ"
    else if Contains(n, "cboe") || code == "BZX" then "CBOE"
    else if Contains(n, "nyse") || code == "NYQ" then "NYSE"
    else if fullName != "" then fullName
    else if code != "" then code
    else "Unknown"
  }

  /** Any name mentioning `nyse arca` maps to NYSE Arca, although it also mentions `nyse`. */
  lemma ArcaBeforeNyse(code: string, fullName: string)
    requires Contains(Lower(if fullName != "" then fullName else code), "nyse arca")
    ensures MapExchange(code, fullName) == "NYSE Arca"
  {
  }

  /** An entry of the SEC `company_tickers_exchange.json` registry (absent fields are `None`). */
  datatype EdgarEntry = EdgarEntry(ticker: Option<string>, cikStr: Option<nat>, exchange: Option<string>)

  /** A registry listing kept for the import. */
  datatype Listing = Listing(ticker: string, cik: string, exchange: string)

  predicate ValidExchange(exchange: Option<string>) {
    exchange.Some? && exchange.value in {"Nasdaq", "NYSE", "NYSE MKT", "NYSE Arca", "CBOE"}
  }

  /** `String(cik_str)`: the decimal digits, or the text `undefined` when the field is absent. */
  function CikText(cik: Option<nat>): string {
    match cik
    case Some(n) => NatToString(n)
    case None => "undefined"
  }

  predicate Kept(e: EdgarEntry) { ValidExchange(e.exchange) && TruthyStr(e.ticker) }

  function ListingOf(e: EdgarEntry): (l: Listing)
    requires Kept(e)
    ensures l.ticker == Upper(e.ticker.value) && l.exchange == e.exchange.value
    ensures |l.cik| >= 10 && EndsWith(l.cik, CikText(e.cikStr))
  {
    Listing(Upper(e.ticker.value), PadStart(CikText(e.cikStr), 10, '0'), e.exchange.value)
  }

  /** The listings of the registry, in registry order. */
  function Listings(entries: seq<EdgarEntry>): (ls: seq<Listing>)
    ensures |ls| <= |entries|
  {
    if entries == [] then []
    else
      var front := Listings(entries[..|entries| - 1]);
      var e := entries[|entries| - 1];
      if Kept(e) then front + [ListingOf(e)] else front
  }

  /** Every listing comes from a kept entry, and every kept entry gives a listing. */
  lemma {:induction false} ListingsMeaning(entries: seq<EdgarEntry>)
    ensures forall l :: l in Listings(entries) ==> exists e :: e in entries && Kept(e) && l == ListingOf(e)
    ensures forall e :: e in entries && Kept(e) ==> ListingOf(e) in Listings(entries)
  {
    if entries != [] {
      var front := entries[..|entries| - 1];
      ListingsMeaning(front);
      assert entries == front + [entries[|entries| - 1]];
    }
  }

  /** `fetchEdgarTickers`: the registry loop keeping listed tickers of the five exchanges. */
  method FetchEdgarTickers(entries: seq<EdgarEntry>) returns (tickers: seq<Listing>)
    ensures tickers == Listings(entries)
  {
    tickers := [];
    for i := 0 to |entries|
      invariant tickers == Listings(entries[..i])
    {
      assert entries[..i + 1][..i] == entries[..i];
      var entry := entries[i];
      if ValidExchange(entry.exchange) && TruthyStr(entry.ticker) {
        tickers := tickers + [Listing(Upper(entry.ticker.value), PadStart(CikText(entry.cikStr), 10, '0'), entry.exchange.value)];
      }
    }
    assert entries[..|entries|] == entries;
  }

  /** `Math.round(x)`: the nearest integer, halves rounded up. */
  function Round(x: real): (r: int)
    ensures r as real - 0.5 <= x < r as real + 0.5
  {
    (x + 0.5).Floor
  }

  /** The first listing of the chunk with the given ticker (`chunk.find`). */
  function FindListing(chunk: seq<Listing>, symbol: string): (l: Option<Listing>)
    ensures l.None? <==> forall i :: 0 <= i < |chunk| ==> chunk[i].ticker != symbol
    ensures l.Some? ==> l.value in chunk && l.value.ticker == symbol
  {
    if chunk == [] then None
    else if chunk[0].ticker == symbol then Some(chunk[0])
    else
      assert forall i :: 1 <= i < |chunk| ==> chunk[i] == chunk[1..][i - 1];
      FindListing(chunk[1..], symbol)
  }

  /** A row of the `etfs` upsert (the update time is the clock's and is left out). */
  datatype EtfRow = EtfRow(
    ticker: string, name: string, issuer: string, category: string, subCategory: string,
    aum: Option<int>, expenseRatio: Option<real>, exchange: string, cik: Option<string>,
    price: Option<real>, changePct: Option<real>)

  predicate IsEtfQuote(q: Quote) { q.quoteType == Some("ETF") }

  /** The market cap as AUM: rounded, and only when strictly above the floor. */
  function AumOf(q: Quote): (aum: Option<int>)
    ensures aum.Some? <==> q.marketCap.Some? && q.marketCap.value > AUM_FLOOR
    ensures aum.Some? ==> aum.value == Round(q.marketCap.value) && aum.value >= 100000
  {
    if Truthy(q.marketCap) && q.marketCap.value > AUM_FLOOR then Some(Round(q.marketCap.value)) else None
  }

  /** The row for one ETF quote of a chunk. */
  function RowOf(rules: seq<Rule<Taxon>>, chunk: seq<Listing>, q: Quote): (row: EtfRow)
    ensures row.ticker == q.symbol && row.issuer == ""
    ensures row.name == OrStr(q.longName, OrStr(q.shortName, q.symbol))
    ensures Taxon(row.category, row.subCategory) == MapCategory(rules, q.category)
    ensures row.exchange == MapExchange(q.exchange.GetOr(""), q.fullExchangeName.GetOr(""))
    ensures row.aum == AumOf(q) && row.expenseRatio == q.netExpenseRatio
    ensures row.price == q.price && row.changePct == q.changePct
    ensures row.cik.Some? <==> exists i :: 0 <= i < |chunk| && chunk[i].ticker == q.symbol
  {
    var t := MapCategory(rules, q.category);
    var entry := FindListing(chunk, q.symbol);
    EtfRow(q.symbol, OrStr(q.longName, OrStr(q.shortName, q.symbol)), "", t.category, t.subCategory,
           AumOf(q), q.netExpenseRatio, MapExchange(q.exchange.GetOr(""), q.fullExchangeName.GetOr("")),
           if entry.Some? then Some(entry.value.cik) else None, q.price, q.changePct)
  }

  /** The rows one chunk contributes: its ETF quotes, in answer order. */
  function ChunkRows(rules: seq<Rule<Taxon>>, chunk: seq<Listing>, quotes: seq<Quote>): (rows: seq<EtfRow>)
    ensures |rows| <= |quotes|
  {
    if quotes == [] then []
    else
      var front := ChunkRows(rules, chunk, quotes[..|quotes| - 1]);
      var q := quotes[|quotes| - 1];
      if IsEtfQuote(q) then front + [RowOf(rules, chunk, q)] else front
  }

  /** Only ETF quotes become rows, and each of them does. */
  lemma {:induction false} ChunkRowsMeaning(rules: seq<Rule<Taxon>>, chunk: seq<Listing>, quotes: seq<Quote>)
    ensures forall r :: r in ChunkRows(rules, chunk, quotes) ==> exists q :: q in quotes && IsEtfQuote(q) && r == RowOf(rules, chunk, q)
    ensures forall q :: q in quotes && IsEtfQuote(q) ==> RowOf(rules, chunk, q) in ChunkRows(rules, chunk, quotes)
  {
    if quotes != [] {
      var front := quotes[..|quotes| - 1];
      ChunkRowsMeaning(rules, chunk, front);
      assert quotes == front + [quotes[|quotes| - 1]];
    }
  }

  /** `chunk.map(t => t.ticker).join(',')`. */
  function Symbols(chunk: seq<Listing>): string {
    if chunk == [] then ""
    else if |chunk| == 1 then chunk[0].ticker
    else chunk[0].ticker + "," + Symbols(chunk[1..])
  }

  const QUOTE_ENDPOINT := "https://query1.finance.yahoo.com/v7/finance/quote?symbols="
  const QUOTE_FIELDS := "&fields=quoteType,shortName,longName,marketCap,regularMarketPrice,regularMarketChangePercent,netExpenseRatio,category,fullExchangeName,exchange"

  /** The quote URL of one chunk. */
  function ChunkUrl(chunk: seq<Listing>): string {
    QUOTE_ENDPOINT + Symbols(chunk) + QUOTE_FIELDS
  }

  /** `fetchYahooChunk`: the answer's quotes, none for a failed request. */
  function QuotesOf(r: Response): seq<Quote> {
    if r.Answered? then r.result else []
  }

  /** The rows of all chunks, chunk after chunk. */
  function AllRows(rules: seq<Rule<Taxon>>, chunks: seq<seq<Listing>>, yahoo: string -> Response): seq<EtfRow> {
    if chunks == [] then []
    else
      var last := chunks[|chunks| - 1];
      AllRows(rules, chunks[..|chunks| - 1], yahoo) + ChunkRows(rules, last, QuotesOf(yahoo(ChunkUrl(last))))
  }

  lemma AllRowsStep(rules: seq<Rule<Taxon>>, chunks: seq<seq<Listing>>, i: nat, yahoo: string -> Response)
    requires i < |chunks|
    ensures AllRows(rules, chunks[..i + 1], yahoo) == AllRows(rules, chunks[..i], yahoo) + ChunkRows(rules, chunks[i], QuotesOf(yahoo(ChunkUrl(chunks[i]))))
  {
    assert chunks[..i + 1][..i] == chunks[..i];
  }

  /** The inner loop over one chunk's quotes. */
  method ScanChunk(rules: seq<Rule<Taxon>>, chunk: seq<Listing>, quotes: seq<Quote>) returns (rows: seq<EtfRow>)
    ensures rows == ChunkRows(rules, chunk, quotes)
  {
    rows := [];
    for i := 0 to |quotes|
      invariant rows == ChunkRows(rules, chunk, quotes[..i])
    {
      assert quotes[..i + 1][..i] == quotes[..i];
      var q := quotes[i];
      if q.quoteType != Some("ETF") {
        continue;
      }
      rows := rows + [RowOf(rules, chunk, q)];
    }
    assert quotes[..|quotes|] == quotes;
  }

  /** The chunk loop of `main`, pausing after every chunk. */
  method ScanChunks(rules: seq<Rule<Taxon>>, chunks: seq<seq<Listing>>, yahoo: string -> Response) returns (etfRows: seq<EtfRow>, pauses: nat)
    ensures etfRows == AllRows(rules, chunks, yahoo)
    ensures pauses == |chunks|
  {
    etfRows, pauses := [], 0;
    for i := 0 to |chunks|
      invariant etfRows == AllRows(rules, chunks[..i], yahoo)
      invariant pauses == i
    {
      AllRowsStep(rules, chunks, i, yahoo);
      var quotes := QuotesOf(yahoo(ChunkUrl(chunks[i])));
      var rows := ScanChunk(rules, chunks[i], quotes);
      etfRows := etfRows + rows;
      pauses := pauses + 1;
    }
    assert chunks[..|chunks|] == chunks;
  }

  /** A row of the `aum_history` snapshot for `date`. */
  datatype HistoryRow = HistoryRow(ticker: string, date: string, aum: int, price: Option<real>)

  /** `etfRows.filter(e => e.aum).map(...)`. */
  function HistoryRows(rows: seq<EtfRow>, today: string): (hs: seq<HistoryRow>)
    ensures |hs| <= |rows|
  {
    if rows == [] then []
    else
      var front := HistoryRows(rows[..|rows| - 1], today);
      var r := rows[|rows| - 1];
      if r.aum.Some? && r.aum.value != 0 then front + [HistoryRow(r.ticker, today, r.aum.value, r.price)] else front
  }

  /** Snapshots are exactly the rows with a non-zero AUM, carrying the same ticker, AUM and price. */
  lemma {:induction false} HistoryRowsMeaning(rows: seq<EtfRow>, today: string)
    ensures forall h :: h in HistoryRows(rows, today) ==>
              h.date == today && SnapshotOf(rows, h)
    ensures forall r :: r in rows && r.aum.Some? && r.aum.value != 0 ==> HistoryRow(r.ticker, today, r.aum.value, r.price) in HistoryRows(rows, today)
  {
    if rows != [] {
      var front := rows[..|rows| - 1];
      HistoryRowsMeaning(front, today);
      assert rows == front + [rows[|rows| - 1]];
    }
  }

  /** Some row of `rows` has the snapshot's ticker, AUM and price. */
  ghost predicate SnapshotOf(rows: seq<EtfRow>, h: HistoryRow) {
    exists r :: r in rows && r.ticker == h.ticker && r.aum == Some(h.aum) && r.price == h.price
  }

  /** The settings the script reads; `None` is an unset variable. */
  datatype Settings = Settings(publicUrl: Option<string>, serviceKey: Option<string>, anonKey: Option<string>)

  /** The script goes on only with a URL and a key (`service || anon`), both non-empty. */
  predicate CanStart(st: Settings) {
    TruthyStr(st.publicUrl) && (TruthyStr(st.serviceKey) || TruthyStr(st.anonKey))
  }

  datatype Report =
    | Exited                  // missing settings: soft exit
    | Fatal                   // the registry request failed: the script throws
    | Done(listings: seq<Listing>, chunks: seq<seq<Listing>>, pauses: nat, etfRows: seq<EtfRow>,
           upserted: nat, historyRows: seq<HistoryRow>)

  /**
   * `main`.  `edgar` is the registry (`None` when its request failed),
   * `yahoo` answers each quote URL, and the two writers say whether a batch
   * was stored; failures of the snapshot writes are ignored.
   */
  method Run(st: Settings, edgar: Option<seq<EdgarEntry>>, yahoo: string -> Response, today: string,
             writeEtfs: seq<EtfRow> -> bool, writeHistory: seq<HistoryRow> -> bool)
    returns (report: Report)
    ensures report.Exited? <==> !CanStart(st)
    ensures report.Fatal? <==> CanStart(st) && edgar.None?
    ensures report.Done? ==>
              && report.listings == Listings(edgar.value)
              && report.chunks == Chunked(report.listings, CHUNK)
              && report.pauses == |report.chunks|
              && report.etfRows == AllRows(CATEGORY_RULES, report.chunks, yahoo)
              && report.upserted == WrittenRows(Chunked(report.etfRows, BATCH), writeEtfs)
              && report.upserted <= |report.etfRows|
              && report.historyRows == HistoryRows(report.etfRows, today)
  {
    if !CanStart(st) {
      return Exited;
    }
    if edgar.None? {
      return Fatal;
    }
    var listings := FetchEdgarTickers(edgar.value);
    var chunks := Cut(listings, CHUNK);
    var etfRows, pauses := ScanChunks(CATEGORY_RULES, chunks, yahoo);
    var batches, upserted, errors := WriteBatches(etfRows, BATCH, writeEtfs);
    var historyRows := HistoryRows(etfRows, today);
    var historyBatches, _, _ := WriteBatches(historyRows, BATCH, writeHistory);
    report := Done(listings, chunks, pauses, etfRows, upserted, historyRows);
  }
}
