# ETF monitor: a verified model of the data layer

The ETF monitor is a Next.js dashboard over a universe of US-listed ETFs.
Its API routes, cron jobs and ingestion scripts sit between upstream feeds
(Yahoo Finance quotes and screeners, Stooq daily closes, SEC EDGAR filings
and N-PORT holdings, RSS news feeds) and a Supabase database, and its
table components filter, sort and paginate what those routes return.

This project models that data layer in Dafny. Each fetch and each database
call is an input: a value, or a function from the request to its response.
What is modelled is the logic around those inputs, and the main properties
are proved about it:

- **Trailing returns.** The Stooq CSV decode, the nearest-point price lookup
  with its 46-day tolerance, simple and annualised returns, YTD from the
  prior calendar year, and the batched, index-aligned history collection.
  These appear in three copies: the refresh-performance cron, the performers
  route and the backfill script.
- **Holdings.** Ticker-map normalisation, the first `NPORT-P` scan, the
  holdings parse (its validity filter, a cap of three times the limit, a
  weight sort and the cut to the limit), archive path and XML URL
  derivation, and the update-holdings counters.
- **Filings.** The first-match brand table, suffix trimming, descriptions
  synthesised from boilerplate, URLs, `isNew`, the `days` window (a NaN
  window throws while building every URL), and the per-form and merged caps.
- **Live and seed data.** Quote-map merging, the AUM floor (1e8, but 1e5 in
  the importer), the stable AUM ranking, the category flow heuristic,
  movers, issuer market share, and the cron row builders.
- **Ingestion.** The first-match category and exchange rules, the ETF
  keyword test and issuer extraction, the two shapes of the EDGAR registry,
  `.env` parsing, and batched upserts with their counters.
- **Lists and UI state.** Ticker chunking, RSS item extraction with merging,
  de-duplication and ordering, the search merge, the screener's parameter
  decoding and filter plan, and the table components' filter, sort,
  paginate and sort-toggle state.

Loops in the source are methods with loop invariants. Each such method is
proved equal to a specification function, and the properties are lemmas
about that function. Mutable component state is a class: `EtfTable.Table`,
`ScreenerPage.Page`, and `EdgarHoldings.TickerCache` for the module-level
ticker-map cache. Pure pipelines are functions. Shared vocabulary lives in
small modules:

- `Wrappers`: `Option`.
- `Text`: strings.
- `Patterns`: the substring and word tests that stand in for the source's
  regular expressions.
- `Sorting`: a stable sort by comparator, together with filter, map and
  slice helpers.
- `Chunking`: slicing and batch counters.
- `Groups` and `Dicts`: first-appearance grouping and dictionary
  assignment.
- `Quotes`: the quote record, the quote-map merge and the host fallback.

Where the code and the repository's own description disagree, the model
follows the code:

- The brand lookup in filings is first match wins, not longest match.
- The AUM ranking sorts on AUM only, stably, with no tie-break on the
  symbol.
- Suffix trimming does not remove a `(CIK …)` part.
- YTD uses only the last close of the prior calendar year, with no
  fallback to the first close of the current year.
- The quote fetchers have no session, cookie or crumb handshake; they only
  fall back from one host to the other.
- The comments of the filings route describe form 497, but the code queries
  only N-1A, 485BPOS and N-14.
- The backfill script prefers `NEXT_PUBLIC_SUPABASE_URL` over
  `SUPABASE_URL`, the reverse of the cron routes.
- With `??`, an empty service key or URL blocks the fallback to the next
  variable.

Some edge cases of the code are kept as written:

- In `fetchHoldings`, an NPORT-P index past the end of the accession array
  makes the call reject (`Fetched.Raised`), because the accession is read
  outside the `try`.
- The ticker-map cache keeps even an empty map.
- An unreadable `pubDate` makes a whole news feed contribute nothing.
- An upsert error in update-holdings counts as neither processed nor
  skipped.
- A text period in performers keeps the data order, because its comparator
  yields NaN.

## Model

| member | source | states |
|---|---|---|
| Sorting.Sort | app/api/movers/route.ts:57 | `Array.prototype.sort` rearranges the list: same length, same elements with the same multiplicities |
| Sorting.SortSorted | app/api/movers/route.ts:57 | under a total preorder (any `b.x - a.x` style comparator on numbers) the result is ordered |
| Sorting.SortOfSorted | app/api/movers/route.ts:57 | an already ordered list comes back unchanged |
| Sorting.InsertTies | app/api/movers/route.ts:57 | inserting an element tied with a value, when it may precede the ties already there, puts it in front of them; any other element leaves the ties in their order |
| Sorting.SortStable | app/api/movers/route.ts:57 | the sort is stable: for every value, the elements that tie with it keep their input order |
| Sorting.SortIdempotent | app/api/movers/route.ts:57 | sorting an already sorted result changes nothing |
| Sorting.TopByKey | app/api/filings/route.ts:138-141 | sorting descending by a key and cutting to `n` keeps `n` elements (all when fewer), drawn from the input, none lighter than any element left out |
| Sorting.SliceTo | app/api/search/route.ts:36 | `slice(0, n)` is a prefix: `n` elements (all of them when fewer), and for a negative `n` all but the last `-n` |
| Sorting.LastN | app/api/movers/route.ts:62 | `slice(-n)` is the suffix of `n` elements, or the whole list when shorter |
| Sorting.Filter | components/ETFTable.tsx:37-58 | `Array.prototype.filter` keeps exactly the elements that pass, each no more often than in the input, and never lengthens the list |
| Sorting.FilterInOrder | app/api/search/route.ts:35 | `filter` keeps the input order: the elements it keeps are a subsequence of the input |
| Text.Trim | app/api/search/route.ts:8 | `trim()` leaves a piece that neither starts nor ends with whitespace and is no longer than the input |
| Text.TrimSpan | app/api/search/route.ts:8 | the trimmed text occurs in the input, with only whitespace before and after it |
| Text.TrimIdempotent | app/api/search/route.ts:8 | trimming twice is trimming once |
| Text.Lower | app/api/performers/route.ts:77 | `toLowerCase()` keeps the length and lower-cases each ASCII letter in place |
| Text.Upper | lib/edgar-holdings.ts:32 | `toUpperCase()` keeps the length and upper-cases each ASCII letter in place |
| Text.LowerIdempotent | scripts/populate_supabase.py:131 | lower-casing twice is lower-casing once |
| Text.UpperIdempotent | lib/edgar-holdings.ts:43 | upper-casing twice is upper-casing once |
| Text.LowerUpper | app/api/performers/route.ts:77 | lower-casing forgets an earlier upper-casing |
| Text.ContainsIff | scripts/populate_supabase.py:206-214 | `includes` / `in` holds exactly when the needle occurs at some position |
| Text.Split | app/api/performers/route.ts:85-90 | `split` on one character gives at least one piece, and no piece holds the separator |
| Text.JoinSplit | app/api/performers/route.ts:85-90 | joining the pieces of a split with the same separator gives back the text |
| Text.SplitCount | app/api/performers/route.ts:85 | a split gives one more piece than there are separators in the text |
| Text.IndexOf | scripts/populate_supabase.py:287-288 | `index` finds the first position holding the value, or the length when there is none |
| Text.RemoveChar | lib/edgar-holdings.ts:177 | `replace(/-/g, '')` removes every dash and changes the count of no other character |
| Text.RemoveCharAbsent | app/api/filings/route.ts:96 | removing a character the text lacks changes nothing |
| Text.TrimEndChar | scripts/populate_supabase.py:44 | `rstrip("/")` removes the whole trailing run of slashes and nothing else |
| Text.StripLeadingZeros | lib/edgar-holdings.ts:178 | `replace(/^0+/, '')` removes the whole leading run of zeros and nothing else |
| Text.PadStart | lib/edgar-holdings.ts:32 | `padStart(10, '0')` gives at least ten characters, ends with the input and is filled with zeros in front |
| Text.ZFill | scripts/populate_supabase.py:313 | `zfill(10)` gives at least ten characters, inserting zeros after a leading sign |
| Text.ZFillIsPadStart | scripts/populate_supabase.py:313 | for unsigned text `zfill` and `padStart` with zeros agree |
| Text.ReplaceAllAbsent | app/api/news/route.ts:46 | replacing a pattern the text lacks changes nothing |
| Text.NatToString | app/screener/page.tsx:62 | `String(n)` of a non-negative integer is a non-empty digit string without a leading zero (unless zero) |
| Text.NatToStringRoundTrip | app/screener/page.tsx:62 | reading back the printed numeral gives the number |
| Text.StrLeTotal | components/ETFTable.tsx:54 | the string order used for text columns relates any two strings |
| Text.StrLeTransitive | components/ETFTable.tsx:54 | the string order used for text columns is transitive |
| Patterns.Lit | scripts/populate_supabase.py:133 | a literal alternative matches each character exactly, with no word boundaries |
| Patterns.Word | scripts/populate_supabase.py:139 | `\bword\b` matches the characters of the word and demands a boundary at both ends |
| Patterns.Dotted | scripts/populate_supabase.py:181 | in an alternative like `metals.mining` each `.` matches any character and every other character only itself |
| Patterns.Lits | scripts/populate_supabase.py:133 | an alternation of plain words is one literal alternative per word, in order |
| Patterns.FindFrom | scripts/populate_supabase.py:133 | scanning from a position finds the alternative exactly when it matches at some later position |
| Patterns.Matches | scripts/populate_supabase.py:133 | `re.search` succeeds exactly when some alternative matches at some position |
| Patterns.LitMatches | scripts/populate_supabase.py:214 | a one-word literal pattern matches exactly when the word is a substring |
| Patterns.MatchesSome | scripts/populate_supabase.py:269 | if one alternative of a pattern matches, the whole pattern does |
| Patterns.FirstRule | scripts/populate_supabase.py:130-202 | the `if … return` chain gives no result exactly when no rule fires |
| Patterns.FirstRuleChoice | scripts/populate_supabase.py:130-202 | a result comes from a rule that fires, and no earlier rule fires |
| Patterns.FirstRuleAt | scripts/populate_supabase.py:130-202 | the first rule that fires decides the result, whatever later rules say |
| Patterns.ScanRules | scripts/populate_supabase.py:266-271 | the `for pattern, brand in table` loop returns the first firing rule's result, or nothing |
| Dicts.AssignKeys | lib/edgar-holdings.ts:30-33 | after a loop of `map[k] = v` assignments, a key is present exactly when some entry assigned it |
| Dicts.AssignLastWins | lib/edgar-holdings.ts:30-33 | the last assignment of a key decides its value |
| Dicts.AssignValues | lib/edgar-holdings.ts:30-33 | every entry of the dictionary was put there by some element of the input |
| Groups.DistinctKeys | components/IssuerSnapshot.tsx:40-47 | the keys of the `Record`, each once, in order of first appearance: exactly the keys of the records |
| Groups.SumOverDistinctKeys | components/IssuerSnapshot.tsx:46 | adding up the per-issuer sums over the distinct issuers gives the overall sum, and the counts add up to the number of records |
| Groups.DistinctKeysCounted | components/IssuerSnapshot.tsx:42-44 | every issuer in the dictionary has at least one fund |
| Quotes.QuoteMapOf | app/api/etfs/route.ts:33-34 | every quote's symbol is a key, and every key maps to a quote of the response carrying that symbol |
| Quotes.QuoteMapOfLast | app/api/etfs/route.ts:34 | for a symbol quoted more than once the dictionary holds the last such quote |
| Quotes.MapOfResponse | app/api/etfs/route.ts:30-37 | a failed or throwing request contributes the empty dictionary; an answer contributes exactly the symbols of `result ?? []` |
| Quotes.MergedLookup | app/api/etfs/route.ts:44 | a key is in the merge exactly when some chunk's dictionary has it, and its value is the one of the last dictionary that has it |
| Quotes.MergeQuoteMaps | app/api/cron/refresh-prices/route.ts:93 | the one-at-a-time `Object.assign` loop computes the merge, whose keys are those of the parts |
| Quotes.FirstNonEmptyChoice | app/api/cron/refresh-prices/route.ts:36-48 | no quotes exactly when no host answered with a non-empty result; otherwise the quotes are those of the first host that did |
| Quotes.TryHosts | app/api/cron/refresh-prices/route.ts:36-48 | the host loop (skip a failure or an empty answer, stop at the first quotes) returns the fallback's choice |
| Quotes.ResolveAum | app/api/etfs/route.ts:55 | the market cap when present and above the floor, the baseline AUM otherwise |
| Chunking.FlattenChunked | lib/etf-data.ts:139-145 | the slices of `size` concatenate back to the list: nothing lost, repeated or reordered |
| Chunking.ChunkSizes | lib/etf-data.ts:141-143 | every slice is non-empty and at most `size` long, and all but the last are exactly `size` |
| Chunking.ChunkCount | lib/etf-data.ts:141 | there are ceil(n / size) slices |
| Chunking.WrittenRowsBound | scripts/populate_supabase.py:85-107 | the rows counted as written never exceed the rows offered and are all of them when no batch failed; errors never exceed the batches |
| Chunking.Cut | lib/etf-data.ts:139-145 | the slicing loop (written out again in the price-refresh cron and the import script) yields the chunking of the list: the slices concatenate back to it, in order, each non-empty and at most `size` long |
| Chunking.WriteBatches | scripts/populate_supabase.py:76-107 | consecutive batches of `size`, each posted once; `total` adds up the rows of the batches that succeeded and `errors` counts the others |
| Chunking.WriteBatch | scripts/populate_supabase.py:87-107 | one turn of the writer slices the next batch and adds it to the rows written or to the failures, keeping both tallies equal to their specifications |
| Chunking.TalliesSnoc | scripts/populate_supabase.py:97-107 | one more batch adds its length to the written rows when it succeeds and one to the failures when it does not |
| Chunking.ChunkedTallies | scripts/populate_supabase.py:85-108 | the rows reported written never exceed the rows offered, and equal them when no batch failed |
| EtfData.AllTickers | lib/etf-data.ts:137 | one ticker per seed fund, in seed order |
| EtfsRoute.Enrich | app/api/etfs/route.ts:46-57 | the curated fields are kept; the four live fields come from the quote (all missing without one); the AUM is the seed's unless the quote's market cap is above 1e8 |
| EtfsRoute.EnrichAll | app/api/etfs/route.ts:46-57 | one enriched fund per seed, in seed order, each enriched with the quote stored under its own ticker |
| EtfsRoute.FetchQuoteMap | app/api/etfs/route.ts:41-44 | the quote map is the tickers cut into chunks of 20, each chunk's answer read into a map, the maps merged in order |
| EtfsRoute.Get | app/api/etfs/route.ts:40-66 | the answer is the enriched seeds sorted by AUM descending with the stable sort: every seed exactly once, AUM never increasing |
| Movers.SeedFor | app/api/movers/route.ts:47 | finds nothing exactly when no seed carries the symbol, otherwise the first seed that does |
| Movers.ToMover | app/api/movers/route.ts:46-54 | the mover keeps the quote's symbol, change percentage and price |
| Movers.MoversOf | app/api/movers/route.ts:44-55 | only quotes with both a change percentage and a price become movers, so there are never more movers than quotes |
| Movers.Get | app/api/movers/route.ts:24-66 | the answer splits the first non-empty host's movers, sorted by change descending; both lists hold at most five, gainers best first and losers worst first |
| Movers.SplitOrdered | app/api/movers/route.ts:61-62 | from a descending ranking, gainers stay descending and the reversed tail of losers is ascending |
| Movers.GainersAboveLosers | app/api/movers/route.ts:61-62 | with at least ten movers the gainers are the first five, the losers the last five reversed, and every gainer's change is at least every loser's |
| Performance.DecodeRow | app/api/cron/refresh-performance/route.ts:41-47 | a row yields a point exactly when column 0 parses as a date and column 4 exists and parses as a number, and the point carries those two values |
| Performance.DecodeRows | app/api/cron/refresh-performance/route.ts:39-47 | dropping the rows with NaN never lengthens the list |
| Performance.DecodeRowsComplete | app/api/cron/refresh-performance/route.ts:39-47 | when every row decodes, the history is those points in file order |
| Performance.DecodeRowsSound | app/api/cron/refresh-performance/route.ts:39-47 | every kept point comes from some row of the file |
| Performance.FetchStooq | app/api/cron/refresh-performance/route.ts:27-51 | there is a history exactly when the request succeeded with a body of at least three lines; it is then the decodable rows after the header |
| Performance.StooqUrlIgnoresCase | app/api/cron/refresh-performance/route.ts:28 | the symbol is lower-cased in the URL, so its case does not change the request |
| Performance.HistoriesFor | app/api/cron/refresh-performance/route.ts:132-143 | one history per ticker, index-aligned with the tickers |
| Performance.NearestIndex | app/api/cron/refresh-performance/route.ts:65-70 | the scan settles on the first point whose date is nearest the target |
| Performance.PriceNearMeaning | app/api/cron/refresh-performance/route.ts:63-72 | a price is found exactly when some point lies within 46 days of the target, and it is the close of a point nearest of all |
| Performance.PriceAt | app/api/cron/refresh-performance/route.ts:63-72 | the `priceAt` loop with its running best difference computes the nearest-point price |
| Performance.Ret | app/api/cron/refresh-performance/route.ts:74-77 | a return exists exactly when the reference price exists and is not zero |
| Performance.RetCompounds | app/api/cron/refresh-performance/route.ts:77 | the return applied to the past price gives the latest price |
| Performance.Annualized | app/api/cron/refresh-performance/route.ts:78 | annualizing keeps a missing return missing and leaves a one-period (`years` absent) return unchanged |
| Performance.LastCloseOfYearMeaning | app/api/cron/refresh-performance/route.ts:60 | the prior-year close is missing exactly when no point falls in that year; otherwise it is the close of the last such point |
| Performance.PerfOf | app/api/cron/refresh-performance/route.ts:53-54 | there are no returns exactly when the history has fewer than three points |
| Performance.ComputePerf | app/api/cron/refresh-performance/route.ts:53-88 | the method, with its `priceAt` scans, computes the specified returns |
| Performance.YtdMeaning | app/api/cron/refresh-performance/route.ts:60-82 | the year-to-date return is missing exactly when there is no prior-year close or it is zero, and otherwise compounds that close into the latest one |
| Performance.YtdIsRet | app/api/cron/refresh-performance/route.ts:82 | the year-to-date field is the plain return from the prior year's last close |
| Performance.OneYearNeedsNearbyPoint | app/api/cron/refresh-performance/route.ts:71-83 | with no point within 46 days of a year ago there is no one-year return |
| Performance.OneYearAnchored | app/api/cron/refresh-performance/route.ts:71-83 | a one-year return compounds the close of a point within tolerance of a year ago, nearest of all, into the latest close |
| Performance.ShortHistoryHasNoPerf | app/api/cron/refresh-performance/route.ts:54 | two points are never enough for any return |
| Performance.YtdExample | app/api/cron/refresh-performance/route.ts:60-82 | for closes 100, 90 (prior December) and 110 the year-to-date return is 20/90 |
| Performance.CollectHistories | app/api/cron/refresh-performance/route.ts:129-143 | requests go four at a time; one history per ticker in ticker order, with a pause between consecutive batches only |
| Performance.RowFor | app/api/cron/refresh-performance/route.ts:148-152 | a ticker gives at most one row |
| Performance.PerfRows | app/api/cron/refresh-performance/route.ts:146-153 | there are never more rows than tickers |
| Performance.PerfRowsCount | app/api/cron/refresh-performance/route.ts:146-153 | a row is written for exactly the tickers whose history has at least three points |
| Performance.UsableAppend | app/api/cron/refresh-performance/route.ts:146-153 | usable histories are counted one by one, so splitting the list splits the count |
| Performance.RowOf | app/api/cron/refresh-performance/route.ts:148-152 | the per-ticker step skips a missing history and a history without returns |
| Performance.BuildRows | app/api/cron/refresh-performance/route.ts:146-153 | the loop builds exactly the specified rows, as many as there are usable histories |
| Performers.SeedNames | app/api/performers/route.ts:53-55 | every seeded ticker is a key |
| Performers.SeedNamesKeys | app/api/performers/route.ts:53-55 | every key is some seed's ticker |
| Performers.SeedNamesLast | app/api/performers/route.ts:53-55 | `Object.fromEntries` keeps the name of the last seed with a ticker |
| Performers.NameFor | app/api/performers/route.ts:154 | the seed name when the ticker is seeded, else the ticker itself |
| Performers.KeyOf | app/api/performers/route.ts:160 | the raw period selects one of the four returns, a text field, or no field |
| Performers.PeriodCol | app/api/performers/route.ts:57-62 | the column is the period's entry in `PERIOD_COLS`, `ytd_return` for any other period, so always one of the four columns |
| Performers.PerfOrNull | app/api/performers/route.ts:99-128 | this copy of `computePerf` answers an all-null record for fewer than three points and otherwise the shared returns |
| Performers.UniverseFor | app/api/performers/route.ts:135-137 | `All` keeps the whole fallback universe, any other category exactly its members |
| Performers.Entries | app/api/performers/route.ts:149-158 | one entry at most per member, so never more entries than members |
| Performers.EntriesSound | app/api/performers/route.ts:149-158 | every entry is a member whose history arrived, named from the seeds or by its ticker, with its computed returns |
| Performers.EntriesOfNothing | app/api/performers/route.ts:151 | with no history at all there are no entries |
| Performers.RankingOrdered | app/api/performers/route.ts:160-164 | for a return period the ranking holds only entries that have it, best first, at most `limit` of them; a non-negative limit keeps exactly `min(limit, n)` of the `n` entries with the return, and none left out has a better return than one kept |
| Performers.RankingCut | app/api/performers/route.ts:160-164 | a non-negative limit keeps exactly `min(limit, n)` of the `n` entries with the return, drawn from them, and none left out has a better return than one kept |
| Performers.UnknownPeriodRanksNothing | app/api/performers/route.ts:160-162 | a period naming no field ranks nothing |
| Performers.TextPeriodKeepsOrder | app/api/performers/route.ts:160-164 | a period naming a text field: the NaN comparator keeps universe order, cut to `limit` |
| Performers.BuildEntries | app/api/performers/route.ts:149-158 | the entry loop builds exactly the specified entries |
| Performers.StooqFallback | app/api/performers/route.ts:130-165 | the fallback ranks the entries built from the universe's fetched histories |
| Performers.LimitOf | app/api/performers/route.ts:173 | the limit defaults to 100, a number given is capped at 500, and an unparsable one is NaN |
| Performers.NaNLimitRanksNothing | app/api/performers/route.ts:164 | with a NaN limit, `slice(0, NaN)` leaves the live ranking empty |
| Performers.QueryFor | app/api/performers/route.ts:171-191 | the query filters on one of the four columns, on the category unless it is `All`, and takes the computed limit |
| Performers.FromRow | app/api/performers/route.ts:194-202 | a row keeps ticker, name and returns, and a missing category reads `Unknown` |
| Performers.Get | app/api/performers/route.ts:169-216 | the database answer is used exactly when the client exists and returns rows, mapped one for one; otherwise the Stooq fallback ranks by the raw period with defaults `ytd` and `All`, cut at the limit with NaN read as 0 |
| CronAuth.MissingHeaderRefused | app/api/cron/refresh-performance/route.ts:92-98 | with a secret set, a request without the header is refused |
| CronAuth.OnlyBearerAccepted | app/api/cron/refresh-performance/route.ts:92-98 | with a secret set, exactly `Bearer <secret>` is accepted |
| CronAuth.FirstSet | app/api/cron/refresh-performance/route.ts:106-107 | `a ?? b ?? ''` gives the first variable that is set, even to the empty string |
| CronAuth.EmptyRuntimeUrlHidesPublicUrl | app/api/cron/refresh-performance/route.ts:106-110 | a runtime URL set to the empty string hides the public URL and leaves the endpoint unconfigured |
| CronAuth.DbUrlSource | app/api/cron/refresh-performance/route.ts:106 | the configured URL is the runtime variable when set, else the public one |
| RefreshPerformance.PageLimit | app/api/cron/refresh-performance/route.ts:103 | the page size defaults to 200, a number given is capped at 200, and an unparsable one is NaN |
| RefreshPerformance.PageOffset | app/api/cron/refresh-performance/route.ts:102 | the offset defaults to 0, and is otherwise the parsed parameter or NaN |
| RefreshPerformance.RangeEnd | app/api/cron/refresh-performance/route.ts:118 | the last row is NaN exactly when the offset or the size is, and otherwise spans the page size from the offset |
| RefreshPerformance.Post | app/api/cron/refresh-performance/route.ts:90-172 | refusal, missing settings and a failed read each happen exactly in their case; otherwise the page read from the parsed offset and size is processed, the written rows are those of the usable histories, `hasMore` means a full non-empty page (never under a NaN size), and the upsert runs only when there is a row |
| RefreshPrices.QuoteUrl | app/api/cron/refresh-prices/route.ts:38-39 | each request goes to `https://<host>.finance.yahoo.com/v7/finance/quote?symbols=` followed by the chunk |
| RefreshPrices.HostResponses | app/api/cron/refresh-prices/route.ts:36-47 | one answer per host, `query2` then `query1`, each to that host's URL |
| RefreshPrices.QuoteMapOfEmpty | app/api/cron/refresh-prices/route.ts:45 | the dictionary built from quotes is empty exactly when there were none |
| RefreshPrices.FetchYahooQuotes | app/api/cron/refresh-prices/route.ts:28-49 | the host loop returns the dictionary of the first host that answered with quotes, and `{}` exactly when no host did |
| RefreshPrices.PriceRowOf | app/api/cron/refresh-prices/route.ts:108-113 | the row carries the ticker, its non-zero price and its change percentage, unset when the quote has none |
| RefreshPrices.PriceRows | app/api/cron/refresh-prices/route.ts:100-114 | there are never more rows than tickers |
| RefreshPrices.PriceRowsAreFilteredTickers | app/api/cron/refresh-prices/route.ts:100-114 | the rows are those of the tickers with a truthy price, mapped in ticker order |
| RefreshPrices.PriceRowsMeaning | app/api/cron/refresh-prices/route.ts:100-114 | every row belongs to a requested, priced ticker and agrees with its quote; every priced ticker has a row |
| RefreshPrices.BuildPriceRows | app/api/cron/refresh-prices/route.ts:100-114 | the row loop builds exactly the specified rows |
| RefreshPrices.Post | app/api/cron/refresh-prices/route.ts:51-142 | refusal, missing settings, a failed read and an empty table each happen exactly in their case; otherwise the counts report tickers, quoted symbols and rows, no history rows are ever written, and the upsert runs only when there is a row |
| RefreshPrices.FetchAll | app/api/cron/refresh-prices/route.ts:92 | one host-fallback dictionary per chunk, in chunk order |
| Backfill.PageCount | scripts/backfill-performance.mjs:115-122 | the usable count up to the end of a page is the count before it plus the page's own |
| Backfill.ProcessChunk | scripts/backfill-performance.mjs:83-105 | the rows written for a page are those of its tickers with usable histories, and their number is reported |
| Backfill.ProcessAll | scripts/backfill-performance.mjs:115-122 | the pages are consecutive slices of 200 covering the table in order, and the total counts every usable history |
| Backfill.Run | scripts/backfill-performance.mjs:18-125 | the script stops exactly on missing settings or a failed read; otherwise it writes one row per ticker whose Stooq history, read by the shared `fetchStooq`, yields returns, never more than the tickers |
| Flows.AccOfSnoc | app/api/flows/route.ts:67-79 | one more fund updates its own category's totals and leaves every other category alone |
| Flows.FreshCategory | app/api/flows/route.ts:72-74 | a category none of the funds seen so far belongs to has all-zero totals, so the entry the loop creates for it is right |
| Flows.StepValues | app/api/flows/route.ts:75-78 | adding a fund to its category's totals keeps every entry equal to the sums over the funds seen, the fund's own category included |
| Flows.StepKeys | app/api/flows/route.ts:72-74 | the category list grows by the fund's category exactly when it is new, and stays the dictionary's key set |
| Flows.AggregateStep | app/api/flows/route.ts:72-78 | one loop iteration keeps the invariant: the dictionary holds exactly the categories seen so far, each with its totals |
| Flows.Aggregate | app/api/flows/route.ts:60-79 | the loop ends with one entry per category, created on the category's first fund, holding the sums over all its funds |
| Flows.AddToCategory | app/api/flows/route.ts:72-78 | the loop body: the category's entry is created when missing, then the fund's figures are added |
| Flows.FlowOf | app/api/flows/route.ts:81-105 | an entry keeps the category, its live AUM and count, and the monthly estimate is four weekly ones |
| Flows.PriceMoveIsNoFlow | app/api/flows/route.ts:83-93 | AUM growth fully explained by the average price move is no flow at all |
| Flows.WeeklyFlowMeaning | app/api/flows/route.ts:83-93 | the weekly estimate is five days of AUM change minus the price-return contribution |
| Flows.FlowsFor | app/api/flows/route.ts:81 | one entry per category, in order of first appearance |
| Flows.FlowsForSums | app/api/flows/route.ts:81-105 | the entries' counts and AUMs add up to the group sums over the listed categories |
| Flows.FlowsCoverUniverse | app/api/flows/route.ts:67-105 | every curated fund is counted in exactly one category, and the category AUMs add up to the live total |
| Flows.NoQuotesNoFlow | app/api/flows/route.ts:69-70 | with no quotes at all every category shows zero weekly flow |
| Flows.Get | app/api/flows/route.ts:47-115 | the answer is the category entries sorted by the size of the weekly flow, largest first whatever the sign, one per category |
| ImportAllEtfs.LargeBlendFirst | scripts/import-all-etfs.mjs:39-42 | a Yahoo category naming both `large` and `blend` always maps to US Equity / Large Cap Blend, since that test comes first |
| ImportAllEtfs.UnknownCategoryIsThematic | scripts/import-all-etfs.mjs:96 | text no test recognises maps to Thematic with its own wording as the sub-category, or `Other` when empty |
| ImportAllEtfs.MapExchange | scripts/import-all-etfs.mjs:99-106 | `nyse arca` or `PCX` gives NYSE Arca; NYSE only comes from `nyse` or `NYQ`; anything unrecognised is shown as `fullName \|\| code \|\| 'Unknown'` |
| ImportAllEtfs.ArcaBeforeNyse | scripts/import-all-etfs.mjs:101-104 | a name mentioning `nyse arca` maps to NYSE Arca although it also mentions `nyse` |
| ImportAllEtfs.ListingOf | scripts/import-all-etfs.mjs:123 | a listing carries the upper-cased ticker, the exchange, and the CIK text padded with zeros to at least ten characters |
| ImportAllEtfs.Listings | scripts/import-all-etfs.mjs:119-127 | never more listings than registry entries |
| ImportAllEtfs.ListingsMeaning | scripts/import-all-etfs.mjs:119-127 | every listing comes from an entry of one of the five exchanges with a ticker, and every such entry gives a listing |
| ImportAllEtfs.FetchEdgarTickers | scripts/import-all-etfs.mjs:110-128 | the registry loop builds exactly the specified listings |
| ImportAllEtfs.Round | scripts/import-all-etfs.mjs:186 | `Math.round` gives the integer within half of the value, halves rounded up |
| ImportAllEtfs.FindListing | scripts/import-all-etfs.mjs:176 | `chunk.find` gives nothing exactly when no listing has the symbol, else a listing of the chunk with it |
| ImportAllEtfs.AumOf | scripts/import-all-etfs.mjs:186 | the AUM is set exactly when the market cap is above 100000, and is then its rounding |
| ImportAllEtfs.RowOf | scripts/import-all-etfs.mjs:176-193 | a row keeps the symbol, takes the first non-empty of long name, short name and symbol, maps category and exchange, and has a CIK exactly when the chunk lists the symbol |
| ImportAllEtfs.ChunkRows | scripts/import-all-etfs.mjs:173-194 | a chunk gives no more rows than quotes |
| ImportAllEtfs.ChunkRowsMeaning | scripts/import-all-etfs.mjs:173-194 | only ETF quotes become rows, and each of them does |
| ImportAllEtfs.AllRowsStep | scripts/import-all-etfs.mjs:166-197 | each chunk appends its own rows after the earlier ones |
| ImportAllEtfs.ScanChunk | scripts/import-all-etfs.mjs:173-194 | the quote loop builds exactly the chunk's rows |
| ImportAllEtfs.ScanChunks | scripts/import-all-etfs.mjs:166-197 | the chunk loop builds all rows in chunk order and pauses once per chunk |
| ImportAllEtfs.HistoryRows | scripts/import-all-etfs.mjs:220-222 | never more snapshots than rows |
| ImportAllEtfs.HistoryRowsMeaning | scripts/import-all-etfs.mjs:220-222 | snapshots are exactly the rows with a non-zero AUM, carrying the same ticker, AUM and price |
| ImportAllEtfs.Run | scripts/import-all-etfs.mjs:149-235 | the script exits exactly on missing settings and fails exactly on a failed registry request; otherwise it chunks the listings, collects the ETF rows, counts only rows of batches that were stored, and snapshots the rows with an AUM (with lines 20-26) |
| UpdateAum.ChunkMaps | scripts/update-aum.mjs:51-78 | one dictionary per chunk, in chunk order, `{}` for a failed request |
| UpdateAum.FetchQuotes | scripts/update-aum.mjs:74-80 | the chunk loop cuts consecutive slices of 20, merges each answer into the dictionary, and pauses after every chunk but the last |
| UpdateAum.AumOf | scripts/update-aum.mjs:92 | a quote supports an AUM exactly when its market cap is above 1e8, and it is then that market cap |
| UpdateAum.EtfRowOf | scripts/update-aum.mjs:96 | the row carries the ticker, its credible AUM, the price and the change percentage of its quote |
| UpdateAum.EtfRows | scripts/update-aum.mjs:88-99 | never more rows than tickers |
| UpdateAum.RowsAligned | scripts/update-aum.mjs:95-98 | the `etfs` rows and the snapshot rows name the same tickers in the same order, with equal AUM and price |
| UpdateAum.EtfRowsAreFilteredTickers | scripts/update-aum.mjs:88-99 | the rows are those of the tickers with a credible AUM, mapped in ticker order |
| UpdateAum.RowsOf | scripts/update-aum.mjs:96 | one row per ticker, in order |
| UpdateAum.NoAumNoRow | scripts/update-aum.mjs:90-95 | a ticker without a quote, or whose market cap is missing or at most 1e8, gets no row |
| UpdateAum.BuildRows | scripts/update-aum.mjs:85-99 | the loop pushes exactly the specified rows into both lists |
| UpdateAum.Run | scripts/update-aum.mjs:19-116 | the script exits exactly on missing settings; otherwise it reports the quoted symbols, three pauses' worth of chunking, both row lists, and sends each list only when it is non-empty |
| UpdateAum.FourRequests | scripts/update-aum.mjs:30-44 | the script's list has 69 tickers, so it makes four requests |
| PopulateSupabase.EnvLineMeaning | scripts/populate_supabase.py:33-39 | a line assigns exactly when, stripped, it is non-empty, not a comment and holds an `=`; key and value are the stripped pieces around the first `=` |
| PopulateSupabase.EnvFromFile | scripts/populate_supabase.py:29-41 | a key the process environment does not set takes the value of the last file line that assigns it |
| PopulateSupabase.EnvKeys | scripts/populate_supabase.py:29-41 | a key is set exactly when the environment or some file line sets it |
| PopulateSupabase.LoadEnv | scripts/populate_supabase.py:29-41 | the line loop then `env.update(os.environ)` gives the specified settings, and the environment always wins |
| PopulateSupabase.SupabaseUrl | scripts/populate_supabase.py:44 | the URL is a prefix of the setting with no trailing slash |
| PopulateSupabase.SupabaseKey | scripts/populate_supabase.py:45 | the service key when set and non-empty, else the anon key |
| PopulateSupabase.SlashesOnlyUrlIsMissing | scripts/populate_supabase.py:44-50 | a URL made only of slashes counts as missing and the script stops |
| PopulateSupabase.MapCategory | scripts/populate_supabase.py:130-202 | the first matching rule decides the category of the lower-cased name, and a name no rule matches is plain US Equity |
| PopulateSupabase.CryptoFirst | scripts/populate_supabase.py:132-134 | a name mentioning bitcoin is Digital Assets whatever else it mentions |
| PopulateSupabase.ContainsAny | scripts/populate_supabase.py:230-231 | `any(kw in t ...)` holds exactly when some keyword occurs in the text |
| PopulateSupabase.IsEtf | scripts/populate_supabase.py:218-231 | a title is an ETF's exactly when its lower-cased text contains one of the keywords |
| PopulateSupabase.ExtractIssuer | scripts/populate_supabase.py:266-271 | the pattern loop returns the brand of the first matching pattern, or `""` when none matches |
| PopulateSupabase.IsharesFirst | scripts/populate_supabase.py:237-271 | an iShares title is BlackRock iShares, even when it also names another brand |
| PopulateSupabase.TitleRowStep | scripts/populate_supabase.py:289-291 | each columnar row assigns its upper-cased ticker the row's title |
| PopulateSupabase.ReadTitleRows | scripts/populate_supabase.py:286-291 | the columnar loop raises exactly when some row is too short, and otherwise builds the assignment dictionary |
| PopulateSupabase.ReadTitleEntries | scripts/populate_supabase.py:294-296 | the object-map loop raises exactly when some truthy ticker is not text, and otherwise assigns exactly the entries with a ticker |
| PopulateSupabase.ListingOf | scripts/populate_supabase.py:310-316 | a record of a valid exchange with a non-empty ticker gives a kept listing, whose CIK ends with the unsigned CIK text |
| PopulateSupabase.ListingsAreListed | scripts/populate_supabase.py:300-329 | every listing of either download shape has a valid exchange, an upper-cased ticker, a ten-character CIK and its looked-up title |
| PopulateSupabase.UnkeptShortRowSkipped | scripts/populate_supabase.py:309-313 | a row too short to hold a CIK is read without raising and skipped when its exchange or ticker does not keep it |
| PopulateSupabase.ReadListingRows | scripts/populate_supabase.py:305-316 | the columnar exchange loop raises exactly when some row lacks its exchange or ticker cell, or is kept but lacks its CIK cell; otherwise it keeps the valid records in order |
| PopulateSupabase.ReadListingEntries | scripts/populate_supabase.py:318-326 | the object-map exchange loop raises exactly when some ticker is not text, and otherwise keeps the valid records in order |
| PopulateSupabase.FetchEdgarTickers | scripts/populate_supabase.py:275-329 | reading the registry: the columnar shape when `fields` and `data` are non-empty, else the object map, `None` exactly when a download fails or reading raises; every listing found is kept for a valid exchange and carries its title |
| PopulateSupabase.FilterEtfs | scripts/populate_supabase.py:333-337 | raises exactly when some truthy title is not text; otherwise keeps exactly the candidates with a non-empty text title that passes `is_etf`, none more often than given |
| PopulateSupabase.NumericTitleRaises | scripts/populate_supabase.py:229-231 | a registry listing whose title is a non-zero number makes `is_etf`, and so the ETF filter, raise |
| PopulateSupabase.BuildRows | scripts/populate_supabase.py:341-358 | for candidates with text titles, one row per candidate, in order, each keeping the ticker and CIK, named by the title (or the ticker), with the issuer, category and exchange the rule tables give |
| PopulateSupabase.CandidateRowsNamedByTitle | scripts/populate_supabase.py:335-349 | every ETF candidate's row is named after its title |
| PopulateSupabase.Run | scripts/populate_supabase.py:460-469 | the script exits exactly on missing settings and raises exactly when reading the registry or filtering it does; otherwise it writes one row per ETF candidate in batches of 500, counts stored rows and failed batches, and reports success exactly when no batch failed (with lines 43-50, 333-337, 362-366) |
| Filings.SpaceRunEnd | app/api/filings/route.ts:73 | `\s+` is greedy: the run ends at the first non-space character or the end |
| Filings.FirstSuffix | app/api/filings/route.ts:73 | alternatives are tried in alternation order; nothing matches exactly when no alternative is followed by a word boundary at that point |
| Filings.SuffixMatch | app/api/filings/route.ts:73 | a suffix match at the start consumes at least one character and stays within the text |
| Filings.StripSuffixes | app/api/filings/route.ts:73 | the global case-insensitive replace never lengthens the name |
| Filings.FriendlyFirstBrand | app/api/filings/route.ts:67-70 | the brand of the first matching pattern wins, whatever later patterns match |
| Filings.IsharesFirst | app/api/filings/route.ts:40-70 | a name containing `ishares` in any letter case is BlackRock iShares |
| Filings.UnbrandedTrimmed | app/api/filings/route.ts:72-74 | without a brand the result is trimmed and no longer than the name |
| Filings.StripNoSpace | app/api/filings/route.ts:73 | a name without whitespace has no suffix to remove |
| Filings.TrustMatch | app/api/filings/route.ts:73 | a space followed by `trust` in any case is one whole match of the suffix pattern |
| Filings.StripKeeps | app/api/filings/route.ts:73 | a character that does not start a whitespace run is kept |
| Filings.StripTrailing | app/api/filings/route.ts:73 | a one-word name followed by one whole suffix match comes back as the bare name |
| Filings.StripTrailingTrust | app/api/filings/route.ts:73 | ` Trust` at the end of a one-word name is removed, in any letter case |
| Filings.FormAction | app/api/filings/route.ts:77-81 | exactly the three forms have a non-empty action sentence |
| Filings.Describe | app/api/filings/route.ts:105-109 | a meaningful description is kept verbatim; boilerplate becomes the form's action, or the form code for an unknown form |
| Filings.RawEntity | app/api/filings/route.ts:102 | the first non-empty of entity name, first display name and `Unknown` |
| Filings.RawDescription | app/api/filings/route.ts:105 | `??` keeps an empty description rather than falling back to the subject |
| Filings.FilingUrl | app/api/filings/route.ts:95-100 | the archive index link when both CIK and dash-free accession number are non-empty, else a full-text search link |
| Filings.AccessionDigits | app/api/filings/route.ts:96 | an accession number loses all its characters to the dash removal only when it is all dashes |
| Filings.RemoveCharKeeps | app/api/filings/route.ts:96 | every character other than the dash survives its removal |
| Filings.FilingOf | app/api/filings/route.ts:93-121 | the filing keeps id, form type (or the queried form), filing date (or now) and accession number, with the friendly issuer, the description and link above, and is new exactly for N-1A |
| Filings.Days | app/api/filings/route.ts:129 | the window is 30 days without a parameter, otherwise the parsed number or NaN |
| Filings.StartDate | app/api/filings/route.ts:12-16 | a NaN window has no start date; a number's start date is today moved back that many days, none when that date is out of range |
| Filings.Query | app/api/filings/route.ts:83-85 | building the URL throws without a start date; otherwise the request answers the query for the form and the window |
| Filings.FetchFilings | app/api/filings/route.ts:83-125 | at most 30 filings, normalised in hit order; no start date (the URL throws), a failure or a missing hit list gives none |
| Filings.FormsToFetch | app/api/filings/route.ts:132 | a non-empty form filter is fetched alone, otherwise the three forms |
| Filings.AllFilings | app/api/filings/route.ts:134-139 | the filings of every form in form order, at most 30 per form, each from its form's fetch over the same window; none without a start date |
| Filings.NewestMeaning | app/api/filings/route.ts:138-141 | the sort and the cut are newest first, drawn from the merged list; exactly 50 filings, or all of them when fewer, and none left out newer than one kept |
| Filings.Get | app/api/filings/route.ts:127-147 | newest first, each from some form fetched over the `days` window; exactly 50 filings, or all of them when fewer, and no filing left out is newer than one shown |
| Filings.NaNDaysShowsNothing | app/api/filings/route.ts:12-16 | a `days` that is not a number makes every URL throw, so the answer is empty whatever EDGAR holds |
| Filings.DefaultWindow | app/api/filings/route.ts:129-135 | without a `days` parameter every form is queried over the last 30 days |
| Filings.FewFilingsAllShown | app/api/filings/route.ts:138-141 | with at most 50 filings nothing is dropped: the answer is a reordering of all of them |
| Filings.FilteredNewness | app/api/filings/route.ts:119-132 | with a form filter every filing is flagged new exactly when the filter is N-1A |
| Filings.UnfilteredNewness | app/api/filings/route.ts:119-132 | without a filter only the N-1A filings are new, and there are at most 90 before the cap |
| EdgarHoldings.TickerMapMeaning | lib/edgar-holdings.ts:30-33 | every key is an upper-cased ticker of some record mapping to that record's CIK padded to at least ten characters, and every record's ticker is a key |
| EdgarHoldings.BuildTickerMap | lib/edgar-holdings.ts:30-33 | the loop fills exactly the specified dictionary |
| EdgarHoldings.LatestNport | lib/edgar-holdings.ts:99-111 | a filing is found exactly when there is a `recent` block whose forms include NPORT-P, and it is the accession and date at the first such index |
| EdgarHoldings.GetLatestNportInfo | lib/edgar-holdings.ts:106-111 | the index loop with its early return finds the specified filing |
| EdgarHoldings.HoldingOf | lib/edgar-holdings.ts:137-148 | a kept holding has a non-empty name and a positive weight |
| EdgarHoldings.HoldingOfMeaning | lib/edgar-holdings.ts:137-148 | a block is kept exactly when its trimmed name and weight text are non-empty and the weight parses to a positive number; the value is 0 when unparseable and the ticker is absent when empty |
| EdgarHoldings.Valid | lib/edgar-holdings.ts:134-149 | the collected holdings are exactly those some block yields, each with a name and a positive weight |
| EdgarHoldings.TopHoldings | lib/edgar-holdings.ts:127-154 | `limit` holdings, or all valid ones when fewer, heaviest first, each one of the first `3 * limit` valid holdings the loop collects |
| EdgarHoldings.TopAreHeaviest | lib/edgar-holdings.ts:152-153 | no collected holding left out weighs more than one that was kept |
| EdgarHoldings.ParseNportHoldings | lib/edgar-holdings.ts:127-154 | the `while` loop stopping at `3 limit` holdings, the stable sort and the slice compute the specified top holdings |
| EdgarHoldings.DirUrl | lib/edgar-holdings.ts:177-179 | the directory is under the archive at the CIK without leading zeros, ending with the dash-free accession number |
| EdgarHoldings.PaddedCikPath | lib/edgar-holdings.ts:178 | the path of a CIK zero-padded as at line 32 is the path of the CIK itself |
| EdgarHoldings.ZerosStripped | lib/edgar-holdings.ts:178 | leading zeros in front of a text are all removed |
| EdgarHoldings.LinkedXml | lib/edgar-holdings.ts:190-199 | an `http` link is used as given, any other link is put on the SEC host, and no link gives `''` |
| EdgarHoldings.XmlUrl | lib/edgar-holdings.ts:188-204 | the fetched document is the linked one, or `primary_doc.xml` in the directory when there is none |
| EdgarHoldings.XmlFallback | lib/edgar-holdings.ts:202-204 | a failed or link-less index page falls back to `primary_doc.xml` |
| EdgarHoldings.HoldingsFrom | lib/edgar-holdings.ts:164-226 | an unknown ticker or an empty CIK gives the empty result; an N-PORT result has between one and 15 holdings, heaviest first, dated by the filing found for the ticker's CIK |
| EdgarHoldings.HoldingsFromFiling | lib/edgar-holdings.ts:168-186 | no N-PORT filing gives the empty result, a filing index past the accessions rejects, and a throwing index fetch gives the empty result |
| EdgarHoldings.HoldingsFromDocument | lib/edgar-holdings.ts:188-222 | a fetched document whose parse is non-empty gives exactly those holdings, dated by the filing, as N-PORT; an empty parse or a failed document fetch gives the empty result |
| EdgarHoldings.TickerCache.constructor | lib/edgar-holdings.ts:18 | nothing is cached at first |
| EdgarHoldings.TickerCache.GetTickerMap | lib/edgar-holdings.ts:20-39 | the cached dictionary is answered when there is one; otherwise a fresh download, kept even when empty, or `{}` on a failure, which is not kept |
| EdgarHoldings.TickerCache.GetCik | lib/edgar-holdings.ts:41-44 | the CIK of the upper-cased ticker in that dictionary, or nothing |
| EdgarHoldings.TickerCache.FetchHoldings | lib/edgar-holdings.ts:164-226 | the result is the one computed from the dictionary `getTickerMap` answers, and the cache is updated as it would be |
| UpdateHoldings.EmptyServiceKeyBlocks | scripts/update-holdings.mjs:16-22 | `??` keeps an empty service key, so it stops the script even when the anonymous key is set |
| UpdateHoldings.AttemptFor | scripts/update-holdings.mjs:94-129 | holdings found are between one and 15, heaviest first, each with a name and a positive weight |
| UpdateHoldings.AttemptForFiling | scripts/update-holdings.mjs:94-98 | a throwing submissions request rejects, a failed one or no N-PORT filing is no data, and a filing index past the accessions rejects |
| UpdateHoldings.AttemptFromDocument | scripts/update-holdings.mjs:98-128 | a fetched document whose parse is non-empty gives exactly those holdings, dated by the filing; an empty parse or a failed document fetch is no data, and a throwing document fetch rejects |
| UpdateHoldings.FetchHoldingsForTicker | scripts/update-holdings.mjs:94-129 | the method computes the specified attempt, with the index page failure falling back to `primary_doc.xml` |
| UpdateHoldings.RowsOf | scripts/update-holdings.mjs:154-161 | one row per holding, in order, dated with the filing date, with the value rounded to whole dollars |
| UpdateHoldings.OutcomeOfMeaning | scripts/update-holdings.mjs:140-177 | a ticker is skipped for lack of a CIK exactly when the dictionary has none for it; a written ticker's rows are those of its holdings, between one and 15 |
| UpdateHoldings.CountsAddUp | scripts/update-holdings.mjs:137-178 | each ticker is counted once: saved, skipped and failed writes add up to the number of targets |
| UpdateHoldings.AllSavedIff | scripts/update-holdings.mjs:137-178 | every ticker was saved exactly when no write failed and nothing was skipped |
| UpdateHoldings.ProcessTickers | scripts/update-holdings.mjs:137-178 | the loop gives one outcome per target, in order, and its two counters are the saved and skipped counts |
| UpdateHoldings.Run | scripts/update-holdings.mjs:131-181 | the script exits exactly on missing settings and crashes exactly when the directory download fails; otherwise it reports the mapping count and one outcome per target, with at most 30 processed or skipped (with lines 16-22) |
| News.LinkOf | app/api/news/route.ts:29-31 | the trimmed `<link>`, or the trimmed `<guid>` when the link is empty |
| News.StripTags | app/api/news/route.ts:42 | removing tags never lengthens the text, keeps a leading non-`<` character, and leaves text without `<` unchanged |
| News.StripTagsNoTag | app/api/news/route.ts:42 | what is left opens no tag |
| News.Unescape | app/api/news/route.ts:46 | unescaping keeps a non-empty title non-empty |
| News.AmpFirst | app/api/news/route.ts:46 | `&amp;` is replaced first, so `&amp;quot;` comes out as a double quote |
| News.SnippetOf | app/api/news/route.ts:42 | the snippet holds at most 160 characters and opens no tag |
| News.ItemOfMeaning | app/api/news/route.ts:26-51 | a block is skipped exactly without a title or a link, throws exactly on an unreadable non-empty date, and otherwise gives an item with its index, title, link, source and a short tag-free snippet, dated now when the date is empty |
| News.RunShape | app/api/news/route.ts:25 | the loop holds at most twenty items, numbered in order |
| News.RunFromBlocks | app/api/news/route.ts:25-52 | every item comes from some block, at the position it was pushed |
| News.HaltedStays | app/api/news/route.ts:25 | once the loop has stopped the remaining blocks change nothing |
| News.ParseItemsShape | app/api/news/route.ts:18-55 | at most twenty items, numbered in order, each with a title, a link and a short snippet, each from a block |
| News.ReadBlock | app/api/news/route.ts:26-51 | the loop body computes the specified step |
| News.ParseRssItems | app/api/news/route.ts:18-55 | the `while` loop with its twenty-item cut-off computes the specified parse |
| News.FeedParts | app/api/news/route.ts:58-68 | one settled result per feed, in feed order |
| News.AllItemsMember | app/api/news/route.ts:71 | an item is merged exactly when some feed produced it |
| News.FirstByTitle | app/api/news/route.ts:73 | deduplication keeps only items of the input |
| News.FirstByTitleUnique | app/api/news/route.ts:73 | no two kept items share a title, and every title is kept |
| News.FirstByTitleFirst | app/api/news/route.ts:73 | each kept item is the first of its title |
| News.Get | app/api/news/route.ts:57-81 | newest first, with distinct titles, each among the first-by-title items of the feeds; exactly 25 of them, or all when fewer, and no item left out is newer than one shown |
| News.NewestDistinct | app/api/news/route.ts:74-80 | the newest-first cut to 25 of distinct-title items keeps distinct titles and holds only those items |
| News.FewItemsAllShown | app/api/news/route.ts:73-75 | with at most 25 distinct titles every first-of-title item is shown |
| News.FeedKept | app/api/news/route.ts:58-73 | a feed's item titles all survive the de-duplication whatever the other feeds did, and reach the answer when at most 25 distinct titles arrive |
| Search.TickerRows | app/api/search/route.ts:17-22 | at most four rows, each a table row whose ticker starts with the query, case-insensitively |
| Search.NameRows | app/api/search/route.ts:25-30 | at most `limit` rows, each a table row whose name contains the query, case-insensitively |
| Search.Combine | app/api/search/route.ts:32-36 | the ticker rows come first in order, followed only by name rows whose ticker is not among them, the answer being a prefix of the ticker rows followed by the unseen name rows; for a non-negative limit the size is the limit or the number of such rows, whichever is smaller |
| Search.CombineInOrder | app/api/search/route.ts:32-36 | the name rows after the ticker rows keep the order of the name query |
| Search.CombineKeepsAll | app/api/search/route.ts:32-36 | with room for all, every ticker match and every other name match is returned |
| Search.Limit | app/api/search/route.ts:9 | a missing limit is 8, and no limit exceeds 20 |
| Search.Get | app/api/search/route.ts:6-39 | a blank query, a missing client or a NaN limit answer nothing; otherwise at most the limit and at most 20 table rows, a prefix of the ticker matches followed by the name matches of other tickers in query order |
| Search.GetMeaning | app/api/search/route.ts:8-36 | for a non-blank query, a client and a non-negative limit, the answer has the limit or all ticker matches and unseen name matches, whichever is fewer, and with room for all it holds every one of them; the name matches shown keep the name query's order |
| ScreenerApi.Conversions | app/api/screener/route.ts:13-17 | AUM bounds are millions of dollars and the expense and return thresholds percentages; a missing AUM bound is 0 and a missing return threshold NaN |
| ScreenerApi.SortColumn | app/api/screener/route.ts:26 | always a valid sort column: the requested one when valid, else `aum` |
| ScreenerApi.PageIndex | app/api/screener/route.ts:20 | a page index, when a number, is never negative, and a missing one is 0 |
| ScreenerApi.PageSize | app/api/screener/route.ts:21 | a page size, when a number, is at most 50, and a missing one is 25 |
| ScreenerApi.Range | app/api/screener/route.ts:42-43 | the row range runs from `page * limit` to `page * limit + limit - 1`, and is NaN when either is |
| ScreenerApi.Decode | app/api/screener/route.ts:11-26 | the decoded criteria hold a valid sort column, a non-negative page and a page size of at most 50 |
| ScreenerApi.AddIfIn | app/api/screener/route.ts:32-38 | a conditional step adds its filter exactly when its condition holds |
| ScreenerApi.FilterMember | app/api/screener/route.ts:32-38 | a filter is in the query exactly when one of the seven conditions adds it |
| ScreenerApi.FilterPlan | app/api/screener/route.ts:32-38 | each filter is present exactly when its parameter asks for it, with the value asked for |
| ScreenerApi.FilterCount | app/api/screener/route.ts:32-38 | at most seven filters |
| ScreenerApi.NoParamsNoFilters | app/api/screener/route.ts:11-43 | without parameters: no filters, AUM descending, rows 0 to 24 |
| ScreenerApi.BuildQuery | app/api/screener/route.ts:28-40 | the `let query` statement sequence builds the specified query |
| ScreenerApi.FallbackQuery | app/api/screener/route.ts:48-52 | the retry drops the performance columns and the filters, orders by AUM descending and keeps the range |
| ScreenerApi.Get | app/api/screener/route.ts:8-60 | no client is exactly `DB unavailable`; a successful query answers its rows and count with performance data; a missing-column failure answers the fallback query's rows and count without it when that query succeeds, and its message when it fails; any other failure answers the query's own message |
| IssuerSnapshot.AccOfSnoc | components/IssuerSnapshot.tsx:43-44 | one more fund adds its AUM and one to its own issuer's totals and changes no other issuer's |
| IssuerSnapshot.AddToIssuer | components/IssuerSnapshot.tsx:42-44 | the loop body keeps the dictionary equal to the totals of the funds seen so far, with issuers in order of first appearance |
| IssuerSnapshot.StepValues | components/IssuerSnapshot.tsx:43-44 | adding a fund to its issuer's totals keeps every entry equal to the sums over the funds seen |
| IssuerSnapshot.StepKeys | components/IssuerSnapshot.tsx:42 | the issuer list grows by the fund's issuer exactly when it is new, and stays the dictionary's key set |
| IssuerSnapshot.AggregateStep | components/IssuerSnapshot.tsx:42-44 | one loop iteration keeps the invariant: the dictionary holds exactly the issuers seen so far, each with its totals |
| IssuerSnapshot.NoFundOf | components/IssuerSnapshot.tsx:42 | an issuer not yet in the dictionary has no funds and no AUM, so its entry starts at zero |
| IssuerSnapshot.Aggregate | components/IssuerSnapshot.tsx:40-45 | one entry per distinct issuer, in order of first appearance, holding the summed AUM and the number of that issuer's funds |
| IssuerSnapshot.AumTotalIsSum | components/IssuerSnapshot.tsx:46 | the total over the entries is the AUM of the whole universe |
| IssuerSnapshot.Share | components/IssuerSnapshot.tsx:52 | under a positive total, a share of an AUM between 0 and the total lies between 0 and 1; it is 0 when the total is not positive |
| IssuerSnapshot.RowsFor | components/IssuerSnapshot.tsx:47-53 | one row per entry, in entry order, carrying the issuer, its AUM, its count and its share |
| IssuerSnapshot.Issuers | components/IssuerSnapshot.tsx:39-56 | the panel rows are every issuer's row, ranked by AUM descending and cut to ten |
| IssuerSnapshot.AllRows | components/IssuerSnapshot.tsx:40-53 | one row per distinct issuer in order of first appearance, each the summed AUM, count and share of that issuer |
| IssuerSnapshot.AllRowsUnique | components/IssuerSnapshot.tsx:40-53 | no issuer has two rows |
| IssuerSnapshot.TopRanked | components/IssuerSnapshot.tsx:54-55 | ranking and cutting keeps at most ten of the rows, largest AUM first, none twice |
| IssuerSnapshot.SortedRows | components/IssuerSnapshot.tsx:54 | sorting ranks the rows by AUM descending, keeps only the given rows and keeps every issuer once |
| IssuerSnapshot.PrefixRanked | components/IssuerSnapshot.tsx:55 | the first ten of a ranking are still ranked, drawn from the same rows, with no issuer twice |
| IssuerSnapshot.RankedIssuers | components/IssuerSnapshot.tsx:39-56 | the panel shows at most ten issuers, largest first, each once, each with its own row, and no issuer left out has more AUM than one shown |
| IssuerSnapshot.LeftOutLighter | components/IssuerSnapshot.tsx:54-55 | cutting the ranked rows to ten leaves out no row with more AUM than one kept |
| IssuerSnapshot.BarsFit | components/IssuerSnapshot.tsx:58 | no issuer shown exceeds the bar scale, the first issuer's AUM |
| IssuerSnapshot.PrefixSums | components/IssuerSnapshot.tsx:40-53 | the first rows' counts and AUM add up to those issuers' funds |
| IssuerSnapshot.PrefixShares | components/IssuerSnapshot.tsx:46-53 | with a positive total, the first rows' shares add up to their AUM over the total |
| IssuerSnapshot.SharesAddUp | components/IssuerSnapshot.tsx:46-52 | with a positive total AUM, the issuers' market shares add up to one |
| IssuerSnapshot.IssuersCoverUniverse | components/IssuerSnapshot.tsx:40-53 | every fund is counted under exactly one issuer, the issuers' AUM adds up to the universe's, and with a positive total the shares add up to one |
| EtfTable.OrderIsTotalPreorder | components/ETFTable.tsx:48-56 | every column and direction gives a total preorder, so the sort is well defined |
| EtfTable.FilteredIsSortedSelection | components/ETFTable.tsx:37-58 | the filtered list is the funds passing the category and search tests, in fund order, then sorted |
| EtfTable.FilteredMeaning | components/ETFTable.tsx:37-58 | the filtered list holds exactly the funds of the category that match the search in ticker, name or issuer, each as often as in the list, ordered by the comparator |
| EtfTable.MissingChangeSortsLow | components/ETFTable.tsx:51 | a fund without a change sorts as -999, so by change descending only funds at or below -999 follow it |
| EtfTable.PageCount | components/ETFTable.tsx:61 | the page count is the ceiling of the row count over 15: zero exactly without rows |
| EtfTable.PageOf | components/ETFTable.tsx:60 | a page holds at most 15 rows, the consecutive rows from `page * 15` |
| EtfTable.EveryRowOnItsPage | components/ETFTable.tsx:60-61 | every filtered row is on one existing page, at its place within it |
| EtfTable.FullPages | components/ETFTable.tsx:60-61 | every page before the last is full |
| EtfTable.SortTwice | components/ETFTable.tsx:31-35 | clicking the same column twice restores the direction; a new column clicked twice ends ascending |
| EtfTable.Table.constructor | components/ETFTable.tsx:15-21 | no funds, AUM descending, every category, no search, first page |
| EtfTable.Table.Load | components/ETFTable.tsx:24-29 | the funds become `json.data ?? []` and nothing else changes |
| EtfTable.Table.HandleSort | components/ETFTable.tsx:31-35 | the same column flips the direction, a new one starts descending, and the table returns to the first page |
| EtfTable.Table.SetSearch | components/ETFTable.tsx:106 | the search changes and the table returns to the first page |
| EtfTable.Table.SetCategory | components/ETFTable.tsx:132 | the category changes and the table returns to the first page |
| EtfTable.Table.Prev | components/ETFTable.tsx:263 | the page goes back one, never below the first |
| EtfTable.Table.Next | components/ETFTable.tsx:273 | the page goes forward one, never past the last; the button exists only with more than one page (line 249) |
| ScreenerPage.With | app/screener/page.tsx:89 | the edited field takes the new text and every other field keeps its own |
| ScreenerPage.WithUndo | app/screener/page.tsx:89 | putting a field's old text back undoes the edit |
| ScreenerPage.HasFiltersIff | app/screener/page.tsx:113-114 | the reset button shows exactly when the form differs from the defaults of lines 31-39 |
| ScreenerPage.SortTwice | app/screener/page.tsx:93-97 | clicking the same column twice restores the direction; a new column clicked twice ends ascending |
| ScreenerPage.WireNamesDistinct | app/screener/page.tsx:61-70 | distinct parameters have distinct query-string names |
| ScreenerPage.BuildParams | app/screener/page.tsx:61-70 | the `URLSearchParams` construction and `set` sequence builds the specified parameters |
| ScreenerPage.SetIfLookup | app/screener/page.tsx:64-70 | after a conditional `set`, its name reads the new value exactly when the condition held |
| ScreenerPage.FixedCarried | app/screener/page.tsx:61-63 | sort, direction, page and limit are always sent with their values |
| ScreenerPage.ProfileFiltersCarried | app/screener/page.tsx:64-67 | the category is sent unless empty or `All`, and the issuer and AUM bounds exactly when non-empty |
| ScreenerPage.CostReturnFiltersCarried | app/screener/page.tsx:68-70 | the expense and return thresholds are sent exactly when non-empty |
| ScreenerPage.RequestCarries | app/screener/page.tsx:61-70 | every parameter is sent exactly when the form asks for it, with the form's text |
| ScreenerPage.LimitText | app/screener/page.tsx:53-62 | the limit is sent as the numeral 25 |
| ScreenerPage.SentFields | app/screener/page.tsx:61-72 | the endpoint receives the sort, direction, page numeral, `25`, the category unless `All`, and the issuer |
| ScreenerPage.EndpointReadsRequest | app/screener/page.tsx:61-72 | the endpoint decodes the page's own sort column (one of the options of lines 10-17) and direction, page number and 25 rows, no category for `All`, and the issuer |
| ScreenerPage.PageCount | app/screener/page.tsx:106 | the page count is the ceiling of the total over 25: zero exactly without rows |
| ScreenerPage.PageWindowMeaning | app/screener/page.tsx:342 | the numbered buttons are the existing pages next to the current one, in increasing order, at most three |
| ScreenerPage.Page.constructor | app/screener/page.tsx:43-50 | default filters, AUM descending, first page, no data and performance columns assumed available |
| ScreenerPage.Page.SetFilter | app/screener/page.tsx:88-91 | one field changes and the page goes back to the first; nothing else changes |
| ScreenerPage.Page.HandleSort | app/screener/page.tsx:93-97 | the same column flips the direction, a new one starts descending, first page |
| ScreenerPage.Page.ResetFilters | app/screener/page.tsx:99-104 | default filters, AUM descending, first page, and the reset button hides |
| ScreenerPage.Page.Prev | app/screener/page.tsx:339 | the page goes back one, from a page past the first |
| ScreenerPage.Page.Next | app/screener/page.tsx:347 | the page goes forward one, from a page before the last |
| ScreenerPage.Page.GoTo | app/screener/page.tsx:340-346 | a numbered, first or last button moves to that existing page |
| ScreenerPage.Page.Receive | app/screener/page.tsx:74-81 | a reply sets `data ?? []`, `total ?? 0` and `perfAvailable !== false`; a failed fetch changes nothing |
| ScreenerPage.Page.Request | app/screener/page.tsx:55-72 | the current state sends the specified parameters |
| TopPerformers.FmtReturn | components/TopPerformers.tsx:37-40 | a missing return is exactly the dash; a present one ends in `%` and starts with `+` when non-negative |
| TopPerformers.RankedIsSortedSelection | components/TopPerformers.tsx:56-61 | the ranking is the category's funds with a value for the period, in data order, sorted |
| TopPerformers.SortedSelection | components/TopPerformers.tsx:58-60 | the sort keeps the selection's funds and orders them by value descending |
| TopPerformers.RankedMeaning | components/TopPerformers.tsx:56-61 | the ranking holds exactly the category's funds with a value for the period, each as often as in the data, best first |
| TopPerformers.MaxWith | components/TopPerformers.tsx:66 | `Math.max` with a floor is at least the floor and every value, and is the floor or one of the values |
| TopPerformers.BarsFit | components/TopPerformers.tsx:64-67 | the scale is at least 0.01 and every bar's fraction `Math.abs(val) / maxAbs` (line 159) lies between 0 and 1 |
| TopPerformers.ScaleIsLargest | components/TopPerformers.tsx:64-67 | with funds ranked, the scale is 0.01 or the largest absolute return among them |

## Left out

- Network and database calls are inputs. Every `fetch`, Supabase and `urllib` call is a value or a function from URL to response: a failed or non-OK call is a failure value and a rejection is `Raised`. Retries, backoff, `sleep` and the pauses between chunks are left out; where the source pauses, the number of pauses is counted.
- Concurrency: each `Promise.all`/`Promise.allSettled` is an index-aligned sequential map; the interleaving of requests is left out.
- Regular expressions: XML and RSS block extraction is an input sequence of already-extracted field strings, and the pattern tables are exact substring and whole-word tests over ASCII (`\s` is space, tab, line feed, carriage return, vertical tab and form feed, without the Unicode spaces JS and Python also admit; `\w` is ASCII letters, digits and `_`).
- Number parsing and NaN: `parseFloat`/`parseInt` are abstract partial functions passed in as parameters, with `None` standing for NaN where the source passes NaN on (the search, performers and refresh-performance limits and offset); floating point is real arithmetic, so rounding is not modelled.
- Timestamps: the `updatedAt` and `timestamp` fields of the API responses (for example app/api/filings/route.ts:145, app/api/cron/refresh-prices/route.ts:140), `perf_updated_at` in refresh-performance and the backfill (app/api/cron/refresh-performance/route.ts:86), and `updated_at` in refresh-prices, update-aum, import-all-etfs and the Python populator (app/api/cron/refresh-prices/route.ts:112, scripts/update-aum.mjs:96) are the current time and are not modelled.
- Calendar arithmetic: `Date.now()` is a parameter, and the year of a timestamp and date-string parsing are abstract functions; an invalid date is a `None`. The annualising power `Math.pow(1 + r, 1/years) - 1` is an abstract function.
- Case folding is ASCII only, and `localeCompare` is code-unit order.
- `URLSearchParams` order and serialisation: the screener request is a map keyed by parameter name.
- Display formatting (`toFixed`, `toLocaleString`, bar widths, chart coordinates) and all React rendering, the loading flags and the `abortRef` cancellation in the screener page.
- TopPerformers.FmtReturn: the number formatter `toFixed(1)` is a parameter, so only the dash, the sign and the `%` are stated.
- The Supabase 1000-row default limit and the server-side ordering: a query result is taken in table order, and `ilike` patterns are matched as plain prefix and substring tests without `%`/`_` wildcards inside the query text.
- Search with a negative `limit`: what the database does with `.limit(-n)` is not modelled, and the name query is read as returning no rows. The later `slice(0, limit)` drops rows from the end, as in JS.
- `seed_fund_flows` in the Python populator, because it depends on the per-process randomised `hash()`; `verify()` and `supabase_count`, which only report.
- `getLatestNportAccession` in `lib/edgar-holdings.ts`, which is unused dead code.
- The distinction between `undefined` and `null` in JSON rows: both are a missing value.
- JSON cells in the EDGAR registry downloads are text, a non-negative integer or null; booleans, floats, lists and nested objects are not modelled, and `str()` of a cell is its text, its decimal numeral or `None`.
- Plain-object prototype keys and `Object.entries` ordering of integer-like keys: object dictionaries are maps whose entry order is insertion order.
- JS sorts and Python `sorted` work in place or on a copy; the model sorts functionally with a stable insertion sort, so aliasing of the sorted array is not captured.
- The session, cookie and crumb handshake for Yahoo does not exist in the code and is not modelled.
