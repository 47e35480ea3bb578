/**
 * GET /api/performers: the funds ranked by one trailing-return period, read
 * from the `etfs` table when it has data and otherwise computed live from
 * Stooq histories for a curated universe of 28 funds.
 */
module Performers {
  import opened Wrappers
  import opened Text
  import opened Sorting
  import opened Performance
  import opened EtfData

  /** A member of the curated fallback universe. */
  datatype Member = Member(ticker: string, category: string)

  const FALLBACK_UNIVERSE: seq<Member> := [
    Member("SPY", "US Equity"), Member("VOO", "US Equity"), Member("QQQ", "US Equity"),
    Member("VTI", "US Equity"), Member("IWM", "US Equity"), Member("VUG", "US Equity"),
    Member("VTV", "US Equity"), Member("SCHD", "US Equity"), Member("RSP", "US Equity"),
    Member("BND", "Fixed Income"), Member("AGG", "Fixed Income"), Member("TLT", "Fixed Income"),
    Member("HYG", "Fixed Income"), Member("SGOV", "Fixed Income"),
    Member("IEFA", "International"), Member("VEA", "International"), Member("VWO", "International"),
    Member("EEM", "International"),
    Member("XLK", "Sector"), Member("XLF", "Sector"), Member("XLE", "Sector"), Member("XLV", "Sector"),
    Member("VGT", "Sector"), Member("SOXX", "Sector"),
    Member("GLD", "Thematic"), Member("IBIT", "Thematic"), Member("ARKK", "Thematic"), Member("TQQQ", "Thematic")]

  /** The database column of each period name. */
  const PERIOD_COLS: map<string, string> :=
    map["ytd" := "ytd_return", "oneYear" := "one_year_return",
        "twoYear" := "two_year_return", "threeYear" := "three_year_return"]

  const DEFAULT_LIMIT := 100
  const MAX_LIMIT := 500

  /** One ranked fund: its identity and the four returns. */
  datatype Entry = Entry(ticker: string, name: string, category: string, perf: Perf)

  // ------------------------------------------------------------ names

  /** `Object.fromEntries(SEED_ETFS.map(e => [e.ticker, e.name]))`: the last seed with a ticker names it. */
  function SeedNames(seeds: seq<Etf>): (m: map<string, string>)
    ensures forall i :: 0 <= i < |seeds| ==> seeds[i].ticker in m
  {
    if seeds == [] then map[]
    else
      var n := |seeds| - 1;
      SeedNames(seeds[..n])[seeds[n].ticker := seeds[n].name]
  }

  /** Every key is some seed's ticker. */
  lemma {:induction false} SeedNamesKeys(seeds: seq<Etf>)
    ensures forall t :: t in SeedNames(seeds) ==> exists i :: 0 <= i < |seeds| && seeds[i].ticker == t
  {
    if seeds != [] {
      var n := |seeds| - 1;
      var front := seeds[..n];
      SeedNamesKeys(front);
      assert SeedNames(seeds) == SeedNames(front)[seeds[n].ticker := seeds[n].name];
      forall t | t in SeedNames(seeds) ensures exists i :: 0 <= i < |seeds| && seeds[i].ticker == t {
        if t != seeds[n].ticker {
          assert t in SeedNames(front);
          var i :| 0 <= i < |front| && front[i].ticker == t;
          assert seeds[i].ticker == t;
        }
      }
    }
  }

  /** The name of a seeded ticker is the name of its last seed. */
  lemma {:induction false} SeedNamesLast(seeds: seq<Etf>, i: nat)
    requires i < |seeds|
    requires forall j :: i < j < |seeds| ==> seeds[j].ticker != seeds[i].ticker
    ensures SeedNames(seeds)[seeds[i].ticker] == seeds[i].name
  {
    var n := |seeds| - 1;
    var front := seeds[..n];
    if i < n {
      var t := seeds[i].ticker;
      assert front[i].ticker == t && front[i].name == seeds[i].name;
      forall j | i < j < |front| ensures front[j].ticker != t {
        assert front[j] == seeds[j];
      }
      SeedNamesLast(front, i);
      assert seeds[n].ticker != t;
      assert SeedNames(seeds) == SeedNames(front)[seeds[n].ticker := seeds[n].name];
    }
  }

  /** `SEED_NAMES[ticker] ?? ticker`. */
  function NameFor(names: map<string, string>, ticker: string): (name: string)
    ensures ticker in names ==> name == names[ticker]
    ensures ticker !in names ==> name == ticker
  {
    if ticker in names then names[ticker] else ticker
  }

  // ------------------------------------------------------------ periods

  /**
   * What the raw `period` parameter selects in an entry: one of the four
   * returns, one of the always-present text fields, or nothing.
   */
  datatype PeriodKey = ReturnField(index: nat) | TextField | NoField

  function KeyOf(period: string): (k: PeriodKey)
    ensures k.ReturnField? ==> k.index < 4
  {
    if period == "ytd" then ReturnField(0)
    else if period == "oneYear" then ReturnField(1)
    else if period == "twoYear" then ReturnField(2)
    else if period == "threeYear" then ReturnField(3)
    else if period == "ticker" || period == "name" || period == "category" then TextField
    else NoField
  }

  /** The return stored in field `index` (0 = YTD, 1..3 = one to three years). */
  function ReturnAt(e: Entry, index: nat): Option<real> {
    if index == 0 then e.perf.ytd
    else if index == 1 then e.perf.oneYear
    else if index == 2 then e.perf.twoYear
    else e.perf.threeYear
  }

  /** `e[period] != null`. */
  function HasPeriod(key: PeriodKey): Entry -> bool {
    (e: Entry) => match key
                  case ReturnField(i) => ReturnAt(e, i).Some?
                  case TextField => true
                  case NoField => false
  }

  function ReturnKey(index: nat): Entry -> real {
    (e: Entry) => ReturnAt(e, index).GetOr(0.0)
  }

  /**
   * The comparator `(a, b) => b[period] - a[period]`.  On a text field the
   * difference is NaN, which the sort treats as equal, so the order is kept.
   */
  function PeriodOrder(key: PeriodKey): (Entry, Entry) -> bool {
    match key
    case ReturnField(i) => Desc(ReturnKey(i))
    case _ => (a: Entry, b: Entry) => true
  }

  /** `PERIOD_COLS[period] ?? 'ytd_return'`. */
  function PeriodCol(period: string): (col: string)
    ensures period in PERIOD_COLS ==> col == PERIOD_COLS[period]
    ensures period !in PERIOD_COLS ==> col == "ytd_return"
    ensures col in PERIOD_COLS.Values
  {
    assert PERIOD_COLS["ytd"] == "ytd_return";
    if period in PERIOD_COLS then PERIOD_COLS[period] else "ytd_return"
  }

  // ------------------------------------------------------------ Stooq fallback

  /** This copy of `computePerf` answers an all-null record, not `null`, for a short history. */
  function PerfOrNull(h: History, rt: Runtime): (p: Perf)
    ensures |h| < MIN_POINTS ==> p == Perf(None, None, None, None)
    ensures |h| >= MIN_POINTS ==> p == PerfOf(h, rt).value
  {
    if |h| < MIN_POINTS then Perf(None, None, None, None) else PerfOf(h, rt).value
  }

  /** `category === 'All'` keeps the whole universe, any other category its exact members. */
  function UniverseFor(universe: seq<Member>, category: string): (u: seq<Member>)
    ensures category == "All" ==> u == universe
    ensures category != "All" ==> forall i :: 0 <= i < |u| ==> u[i].category == category && u[i] in universe
    ensures category != "All" ==>
              forall i :: 0 <= i < |universe| && universe[i].category == category ==> universe[i] in u
  {
    if category == "All" then universe
    else Filter(universe, (m: Member) => m.category == category)
  }

  /** The universe's tickers, index-aligned with it. */
  function Tickers(u: seq<Member>): seq<string> {
    seq(|u|, i requires 0 <= i < |u| => u[i].ticker)
  }

  /** The entry for one member: none when its history failed. */
  function EntryFor(m: Member, h: Option<History>, names: map<string, string>, rt: Runtime): seq<Entry> {
    if h.None? then [] else [Entry(m.ticker, NameFor(names, m.ticker), m.category, PerfOrNull(h.value, rt))]
  }

  /** The entries of the members whose history arrived, in universe order. */
  function Entries(u: seq<Member>, hs: seq<Option<History>>, names: map<string, string>, rt: Runtime): (es: seq<Entry>)
    requires |hs| == |u|
    ensures |es| <= |u|
  {
    if u == [] then []
    else
      var n := |u| - 1;
      Entries(u[..n], hs[..n], names, rt) + EntryFor(u[n], hs[n], names, rt)
  }

  /** Every entry is a member whose history arrived, named from the seeds or by its ticker. */
  lemma {:induction false} EntriesSound(u: seq<Member>, hs: seq<Option<History>>, names: map<string, string>,
                                        rt: Runtime, k: nat) returns (i: nat)
    requires |hs| == |u| && k < |Entries(u, hs, names, rt)|
    ensures i < |u| && hs[i].Some?
    ensures Entries(u, hs, names, rt)[k] ==
              Entry(u[i].ticker, NameFor(names, u[i].ticker), u[i].category, PerfOrNull(hs[i].value, rt))
  {
    var n := |u| - 1;
    var front := Entries(u[..n], hs[..n], names, rt);
    if k < |front| {
      i := EntriesSound(u[..n], hs[..n], names, rt, k);
    } else {
      i := n;
    }
  }

  /** Members without a history produce no entry, so with no history at all there is nothing. */
  lemma {:induction false} EntriesOfNothing(u: seq<Member>, hs: seq<Option<History>>, names: map<string, string>, rt: Runtime)
    requires |hs| == |u| && forall i :: 0 <= i < |hs| ==> hs[i].None?
    ensures Entries(u, hs, names, rt) == []
  {
    if u != [] {
      var n := |u| - 1;
      EntriesOfNothing(u[..n], hs[..n], names, rt);
    }
  }

  /** The final pipeline: keep entries that have the period, best first, at most `limit`. */
  function Ranking(entries: seq<Entry>, period: string, limit: int): seq<Entry> {
    var key := KeyOf(period);
    SliceTo(Sort(Filter(entries, HasPeriod(key)), PeriodOrder(key)), limit)
  }

  /**
   * A ranking on a return is ordered by it and holds only entries that have
   * it; a non-negative limit keeps `min(limit, n)` of the `n` entries with the
   * return, and no entry left out has a better return than one kept.
   */
  lemma RankingOrdered(entries: seq<Entry>, period: string, limit: int)
    requires KeyOf(period).ReturnField?
    ensures var r := Ranking(entries, period, limit);
            && (forall i :: 0 <= i < |r| ==> ReturnAt(r[i], KeyOf(period).index).Some?)
            && (forall i, j :: 0 <= i < j < |r| ==>
                  ReturnAt(r[i], KeyOf(period).index).value >= ReturnAt(r[j], KeyOf(period).index).value)
            && (limit >= 0 ==> |r| <= limit)
    ensures var r := Ranking(entries, period, limit);
            var kept := Filter(entries, HasPeriod(KeyOf(period)));
            limit >= 0 ==>
              && |r| == Min(limit, |kept|)
              && multiset(r) <= multiset(kept)
              && forall x, y :: x in r && y in multiset(kept) - multiset(r) ==>
                   ReturnAt(x, KeyOf(period).index).GetOr(0.0) >= ReturnAt(y, KeyOf(period).index).GetOr(0.0)
  {
    var key := KeyOf(period);
    var kept := Filter(entries, HasPeriod(key));
    var sorted := Sort(kept, PeriodOrder(key));
    if limit >= 0 {
      RankingCut(entries, period, limit);
    }
    SortedDesc(kept, ReturnKey(key.index));
    assert multiset(sorted) == multiset(kept);
    forall i | 0 <= i < |sorted| ensures ReturnAt(sorted[i], key.index).Some? {
      assert sorted[i] in multiset(kept);
    }
    assert DescendingBy(sorted, ReturnKey(key.index));
    DescendingPrefix(sorted, ReturnKey(key.index), limit);
  }

  /** The cut to a non-negative limit keeps `min(limit, n)` entries, and none left out ranks higher. */
  lemma RankingCut(entries: seq<Entry>, period: string, limit: nat)
    requires KeyOf(period).ReturnField?
    ensures var r := Ranking(entries, period, limit);
            var kept := Filter(entries, HasPeriod(KeyOf(period)));
            && |r| == Min(limit, |kept|)
            && multiset(r) <= multiset(kept)
            && forall x, y :: x in r && y in multiset(kept) - multiset(r) ==>
                 ReturnAt(x, KeyOf(period).index).GetOr(0.0) >= ReturnAt(y, KeyOf(period).index).GetOr(0.0)
  {
    var key := KeyOf(period);
    var kept := Filter(entries, HasPeriod(key));
    TopByKey(kept, ReturnKey(key.index), limit);
    var r := Ranking(entries, period, limit);
    forall x, y | x in r && y in multiset(kept) - multiset(r)
      ensures ReturnAt(x, key.index).GetOr(0.0) >= ReturnAt(y, key.index).GetOr(0.0)
    {
      assert ReturnKey(key.index)(x) >= ReturnKey(key.index)(y);
    }
  }

  /** A period naming no field of an entry ranks nothing. */
  lemma UnknownPeriodRanksNothing(entries: seq<Entry>, period: string, limit: int)
    requires KeyOf(period).NoField?
    ensures Ranking(entries, period, limit) == []
  {
  }

  /** A period naming a text field keeps the entries in universe order. */
  lemma TextPeriodKeepsOrder(entries: seq<Entry>, period: string, limit: int)
    requires KeyOf(period).TextField?
    ensures Ranking(entries, period, limit) == SliceTo(entries, limit)
  {
    FilterAll(entries, HasPeriod(TextField));
    SortOfSorted(entries, PeriodOrder(TextField));
  }

  /** The entry loop of the fallback. */
  method BuildEntries(u: seq<Member>, hs: seq<Option<History>>, names: map<string, string>, rt: Runtime)
    returns (entries: seq<Entry>)
    requires |hs| == |u|
    ensures entries == Entries(u, hs, names, rt)
  {
    entries := [];
    for i := 0 to |u|
      invariant entries == Entries(u[..i], hs[..i], names, rt)
    {
      assert u[..i + 1][..i] == u[..i] && hs[..i + 1][..i] == hs[..i];
      if hs[i].None? {
        continue;
      }
      var perf := PerfOrNull(hs[i].value, rt);
      entries := entries + [Entry(u[i].ticker, NameFor(names, u[i].ticker), u[i].category, perf)];
    }
    assert u[..|u|] == u && hs[..|hs|] == hs;
  }

  /** `stooqFallback`: the universe's histories four at a time, their entries, then the ranking. */
  method StooqFallback(period: string, category: string, limit: int, seeds: seq<Etf>,
                       stooq: string -> StooqResponse, rt: Runtime)
    returns (result: seq<Entry>)
    ensures var u := UniverseFor(FALLBACK_UNIVERSE, category);
            result == Ranking(Entries(u, HistoriesFor(Tickers(u), FetchHistory(stooq, rt)), SeedNames(seeds), rt),
                              period, limit)
  {
    var universe := UniverseFor(FALLBACK_UNIVERSE, category);
    var histories, pauses := CollectHistories(Tickers(universe), FetchHistory(stooq, rt));
    assert histories == HistoriesFor(Tickers(universe), FetchHistory(stooq, rt));
    var entries := BuildEntries(universe, histories, SeedNames(seeds), rt);
    var key := KeyOf(period);
    result := SliceTo(Sort(Filter(entries, HasPeriod(key)), PeriodOrder(key)), limit);
  }

  // ------------------------------------------------------------ handler

  /** The database query: the period column non-null, optionally one category, best first, `limit` rows (`None` is NaN). */
  datatype Query = Query(col: string, category: Option<string>, limit: Option<int>)

  /** A database row; `None` is SQL null. */
  datatype DbRow = DbRow(ticker: string, name: string, category: Option<string>,
                         ytd: Option<real>, oneYear: Option<real>, twoYear: Option<real>, threeYear: Option<real>)

  datatype Source = Database | StooqFallbackSource

  /** `Math.min(parseInt(limit ?? '100', 10), 500)`; `None` is NaN, which `Math.min` passes on. */
  function LimitOf(limitParam: Option<string>, parseInt: string -> Option<int>): (n: Option<int>)
    ensures limitParam.None? ==> n == Some(DEFAULT_LIMIT)
    ensures limitParam.Some? && parseInt(limitParam.value).None? ==> n.None?
    ensures limitParam.Some? && parseInt(limitParam.value).Some? ==> n == Some(Min(parseInt(limitParam.value).value, MAX_LIMIT))
    ensures n.Some? ==> n.value <= MAX_LIMIT
  {
    var parsed := if limitParam.None? then Some(DEFAULT_LIMIT) else parseInt(limitParam.value);
    if parsed.None? then None else Some(Min(parsed.value, MAX_LIMIT))
  }

  /** The end `slice(0, limit)` uses: NaN counts as 0. */
  function SliceEnd(limit: Option<int>): int {
    limit.GetOr(0)
  }

  /** A NaN limit leaves the live ranking empty, whatever the entries. */
  lemma NaNLimitRanksNothing(entries: seq<Entry>, period: string)
    ensures Ranking(entries, period, SliceEnd(None)) == []
  {
  }

  function QueryFor(period: Option<string>, category: Option<string>, limitParam: Option<string>,
                    parseInt: string -> Option<int>): (q: Query)
    ensures q.col in PERIOD_COLS.Values
    ensures q.category.None? <==> category.GetOr("All") == "All"
    ensures q.category.Some? ==> q.category.value == category.value
    ensures q.limit == LimitOf(limitParam, parseInt)
  {
    var c := category.GetOr("All");
    Query(PeriodCol(period.GetOr("ytd")), if c == "All" then None else Some(c), LimitOf(limitParam, parseInt))
  }

  /** A database row as an entry: a missing category reads `Unknown`. */
  function FromRow(r: DbRow): (e: Entry)
    ensures e.ticker == r.ticker && e.name == r.name
    ensures e.category == r.category.GetOr("Unknown")
    ensures e.perf == Perf(r.ytd, r.oneYear, r.twoYear, r.threeYear)
  {
    Entry(r.ticker, r.name, r.category.GetOr("Unknown"), Perf(r.ytd, r.oneYear, r.twoYear, r.threeYear))
  }

  /**
   * The handler.  `db` is the database client (`None` when unconfigured); it
   * answers a query with rows or `None` on error.  The database answer is
   * used when it has rows; otherwise the live fallback ranks the universe by
   * the raw period name.
   */
  method Get(period: Option<string>, category: Option<string>, limitParam: Option<string>, parseInt: string -> Option<int>,
             db: Option<Query -> Option<seq<DbRow>>>, seeds: seq<Etf>, stooq: string -> StooqResponse, rt: Runtime)
    returns (data: seq<Entry>, source: Source)
    ensures var q := QueryFor(period, category, limitParam, parseInt);
            source == Database <==> db.Some? && db.value(q).Some? && |db.value(q).value| > 0
    ensures source == Database ==>
              var rows := db.value(QueryFor(period, category, limitParam, parseInt)).value;
              |data| == |rows| && forall i :: 0 <= i < |rows| ==> data[i] == FromRow(rows[i])
    ensures source == StooqFallbackSource ==>
              var u := UniverseFor(FALLBACK_UNIVERSE, category.GetOr("All"));
              data == Ranking(Entries(u, HistoriesFor(Tickers(u), FetchHistory(stooq, rt)), SeedNames(seeds), rt),
                              period.GetOr("ytd"), SliceEnd(LimitOf(limitParam, parseInt)))
  {
    var p := period.GetOr("ytd");
    var c := category.GetOr("All");
    var n := SliceEnd(LimitOf(limitParam, parseInt));
    var q := QueryFor(period, category, limitParam, parseInt);
    if db.Some? {
      var rows := db.value(q);
      if rows.Some? && |rows.value| > 0 {
        data := seq(|rows.value|, i requires 0 <= i < |rows.value| => FromRow(rows.value[i]));
        return data, Database;
      }
    }
    data := StooqFallback(p, c, n, seeds, stooq, rt);
    source := StooqFallbackSource;
  }
}
