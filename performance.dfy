/**
 * The trailing-return engine shared by the performance cron, the backfill
 * script and the performers fallback: decoding Stooq's monthly CSV, finding
 * the point nearest a target date within a 46-day tolerance, and the YTD,
 * 1-year, 2-year and 3-year returns.
 *
 * Dates are epoch milliseconds.  Date parsing, number parsing, the calendar
 * year of a timestamp and the fractional power used for annualising are
 * parameters: they belong to the JavaScript runtime, not to this system.
 */
module Performance {
  import opened Wrappers
  import opened Text
  import opened Chunking

  datatype PricePoint = PricePoint(date: int, price: real)
  type History = seq<PricePoint>

  const DAY_MS := 86400000
  /** A target date is only matched by a point less than 46 days away. */
  const TOLERANCE_MS := 46 * DAY_MS
  /** Fewer points than this give no returns at all. */
  const MIN_POINTS := 3
  /** Stooq requests issued together. */
  const BATCH := 4

  /** The runtime services the computation reads. */
  datatype Runtime = Runtime(
    now: int,                          // Date.now()
    yearOf: int -> int,                // new Date(t).getFullYear()
    root: (real, nat) -> real,         // (x, n) => Math.pow(x, 1 / n)
    parseDate: string -> Option<int>,  // new Date(s).getTime(), None for NaN
    parseFloat: string -> Option<real>) // parseFloat(s), None for NaN

  // ------------------------------------------------------------ Stooq CSV

  /** How one Stooq request ended. */
  datatype StooqResponse = StooqThrew | StooqNotOk | StooqBody(text: string)

  /** One CSV row: the date from column 0, the close from column 4; `None` when either is NaN. */
  function DecodeRow(line: string, rt: Runtime): (p: Option<PricePoint>)
    ensures p.Some? ==> rt.parseDate(Split(line, ',')[0]) == Some(p.value.date)
    ensures p.Some? ==> |Split(line, ',')| > 4 && rt.parseFloat(Split(line, ',')[4]) == Some(p.value.price)
    ensures p.None? ==> rt.parseDate(Split(line, ',')[0]).None? || |Split(line, ',')| <= 4
                          || rt.parseFloat(Split(line, ',')[4]).None?
  {
    var cols := Split(line, ',');
    var date := rt.parseDate(cols[0]);
    var price := if |cols| > 4 then rt.parseFloat(cols[4]) else None;
    if date.Some? && price.Some? then Some(PricePoint(date.value, price.value)) else None
  }

  /** The rows that decode, in file order. */
  function DecodeRows(lines: seq<string>, rt: Runtime): (h: History)
    ensures |h| <= |lines|
  {
    if lines == [] then []
    else
      var p := DecodeRow(lines[0], rt);
      (if p.Some? then [p.value] else []) + DecodeRows(lines[1..], rt)
  }

  /** Every row that decodes is kept, so a file of well-formed rows loses nothing. */
  lemma {:induction false} DecodeRowsComplete(lines: seq<string>, rt: Runtime)
    requires forall i :: 0 <= i < |lines| ==> DecodeRow(lines[i], rt).Some?
    ensures |DecodeRows(lines, rt)| == |lines|
    ensures forall i :: 0 <= i < |lines| ==> DecodeRows(lines, rt)[i] == DecodeRow(lines[i], rt).value
  {
    if lines != [] {
      DecodeRowsComplete(lines[1..], rt);
      assert forall i :: 1 <= i < |lines| ==> lines[i] == lines[1..][i - 1];
    }
  }

  /** Every kept point comes from some row of the file. */
  lemma {:induction false} DecodeRowsSound(lines: seq<string>, rt: Runtime, i: nat)
    requires i < |DecodeRows(lines, rt)|
    ensures exists j :: 0 <= j < |lines| && DecodeRow(lines[j], rt) == Some(DecodeRows(lines, rt)[i])
  {
    var p := DecodeRow(lines[0], rt);
    if p.Some? && i == 0 {
      assert DecodeRow(lines[0], rt) == Some(DecodeRows(lines, rt)[0]);
    } else {
      var i' := if p.Some? then i - 1 else i;
      DecodeRowsSound(lines[1..], rt, i');
      var j :| 0 <= j < |lines[1..]| && DecodeRow(lines[1..][j], rt) == Some(DecodeRows(lines[1..], rt)[i']);
      assert lines[j + 1] == lines[1..][j];
    }
  }

  /** The lines of a response body: `text.trim().split('\n')`. */
  function BodyLines(text: string): seq<string> { Split(Trim(text), '\n') }

  /**
   * `fetchStooq`: no history when the request failed or the body has fewer
   * than a header and two rows; otherwise the decodable rows after the header.
   */
  function FetchStooq(r: StooqResponse, rt: Runtime): (h: Option<History>)
    ensures h.Some? <==> r.StooqBody? && |BodyLines(r.text)| >= 3
    ensures h.Some? ==> h.value == DecodeRows(BodyLines(r.text)[1..], rt)
    ensures h.Some? ==> |h.value| < |BodyLines(r.text)|
  {
    match r
    case StooqBody(text) =>
      var lines := BodyLines(text);
      if |lines| < 3 then None else Some(DecodeRows(lines[1..], rt))
    case _ => None
  }

  /** The monthly-history URL of a ticker: the lower-cased symbol on the US board. */
  function StooqUrl(ticker: string): string {
    "https://stooq.com/q/d/l/?s=" + Lower(ticker) + ".us&i=m"
  }

  /** The symbol's case does not change the request. */
  lemma StooqUrlIgnoresCase(ticker: string)
    ensures StooqUrl(Upper(ticker)) == StooqUrl(ticker)
  {
    assert Lower(Upper(ticker)) == Lower(ticker) by {
      LowerUpper(ticker);
    }
  }

  /** `fetchStooq` for one ticker, given how the server answers each URL. */
  function FetchHistory(stooq: string -> StooqResponse, rt: Runtime): string -> Option<History> {
    t => FetchStooq(stooq(StooqUrl(t)), rt)
  }

  /** The histories of `tickers`, index-aligned: what the batch loop is to produce. */
  function HistoriesFor(tickers: seq<string>, fetch: string -> Option<History>): (hs: seq<Option<History>>)
    ensures |hs| == |tickers|
    ensures forall i :: 0 <= i < |tickers| ==> hs[i] == fetch(tickers[i])
  {
    seq(|tickers|, i requires 0 <= i < |tickers| => fetch(tickers[i]))
  }

  // ----------------------------------------------------------- nearest point

  function Dist(a: int, b: int): nat { if a >= b then a - b else b - a }

  /** The index the `priceAt` scan settles on among the first `n` points: the first one nearest `target`. */
  function NearestIndex(h: History, n: nat, target: int): (k: nat)
    requires 0 < n <= |h|
    ensures k < n
    ensures forall j :: 0 <= j < n ==> Dist(h[k].date, target) <= Dist(h[j].date, target)
    ensures forall j :: 0 <= j < k ==> Dist(h[j].date, target) > Dist(h[k].date, target)
  {
    if n == 1 then 0
    else
      var b := NearestIndex(h, n - 1, target);
      if Dist(h[n - 1].date, target) < Dist(h[b].date, target) then n - 1 else b
  }

  /**
   * The close nearest `target`, when that point lies within the tolerance.
   * `PriceNearMeaning` states what it is.
   */
  function PriceNear(h: History, target: int): Option<real> {
    if |h| == 0 then None
    else
      var k := NearestIndex(h, |h|, target);
      if Dist(h[k].date, target) < TOLERANCE_MS then Some(h[k].price) else None
  }

  /**
   * There is a price near `target` exactly when some point lies within the
   * tolerance, and then it is the close of a point nearest to the target.
   */
  lemma PriceNearMeaning(h: History, target: int)
    ensures PriceNear(h, target).None? <==> forall j :: 0 <= j < |h| ==> Dist(h[j].date, target) >= TOLERANCE_MS
    ensures PriceNear(h, target).Some? ==>
              exists k :: && 0 <= k < |h| && h[k].price == PriceNear(h, target).value
                          && Dist(h[k].date, target) < TOLERANCE_MS
                          && forall j :: 0 <= j < |h| ==> Dist(h[k].date, target) <= Dist(h[j].date, target)
  {
    if |h| > 0 {
      var k := NearestIndex(h, |h|, target);
    }
  }

  /** The instant `daysAgo` days before `now`. */
  function DaysBefore(now: int, daysAgo: nat): int { now - daysAgo * DAY_MS }

  /** `priceAt(daysAgo)`: the scan for the nearest point to `daysAgo` days before now. */
  method PriceAt(h: History, now: int, daysAgo: nat) returns (p: Option<real>)
    ensures p == PriceNear(h, DaysBefore(now, daysAgo))
  {
    var target := DaysBefore(now, daysAgo);
    var best: Option<PricePoint> := None;
    var bestDiff: Option<nat> := None;   // None stands for Infinity
    for i := 0 to |h|
      invariant i == 0 ==> best.None? && bestDiff.None?
      invariant i > 0 ==> best == Some(h[NearestIndex(h, i, target)])
                            && bestDiff == Some(Dist(h[NearestIndex(h, i, target)].date, target))
    {
      var d := Dist(h[i].date, target);
      if bestDiff.None? || d < bestDiff.value {
        bestDiff := Some(d);
        best := Some(h[i]);
      }
    }
    p := if best.Some? && bestDiff.value < TOLERANCE_MS then Some(best.value.price) else None;
  }

  // ------------------------------------------------------------------ returns

  /** `(latest - past) / past`, or nothing when the reference price is missing or zero. */
  function Ret(latest: real, past: Option<real>): (r: Option<real>)
    ensures r.Some? <==> past.Some? && past.value != 0.0
  {
    if past.None? || past.value == 0.0 then None else Some((latest - past.value) / past.value)
  }

  /** Growing `past` by the return `r` gives `latest`. */
  predicate Compounds(past: real, r: real, latest: real) {
    past * (1.0 + r) == latest
  }

  /** The return is exactly what turns the past price into the latest one. */
  lemma RetCompounds(latest: real, past: Option<real>)
    requires Ret(latest, past).Some?
    ensures Compounds(past.value, Ret(latest, past).value, latest)
  {
    var p := past.value;
    var r := (latest - p) / p;
    assert p * r == latest - p;
  }

  /** `years ? Math.pow(1 + r, 1 / years) - 1 : r`. */
  function Annualized(r: Option<real>, years: nat, root: (real, nat) -> real): (a: Option<real>)
    ensures a.Some? <==> r.Some?
    ensures years == 0 ==> a == r
  {
    match r
    case None => None
    case Some(x) => if years == 0 then Some(x) else Some(root(1.0 + x, years) - 1.0)
  }

  /** The close of the last point dated in `year` (`filter(...).at(-1)?.price ?? null`). */
  function LastCloseOfYear(h: History, yearOf: int -> int, year: int): Option<real> {
    if h == [] then None
    else if yearOf(h[|h| - 1].date) == year then Some(h[|h| - 1].price)
    else LastCloseOfYear(h[..|h| - 1], yearOf, year)
  }

  /**
   * The close is missing exactly when no point falls in `year`; otherwise it
   * belongs to a point of that year after which no point of that year follows.
   */
  lemma LastCloseOfYearMeaning(h: History, yearOf: int -> int, year: int)
    ensures LastCloseOfYear(h, yearOf, year).None? <==> forall i :: 0 <= i < |h| ==> yearOf(h[i].date) != year
    ensures LastCloseOfYear(h, yearOf, year).Some? ==>
              exists k :: && 0 <= k < |h| && yearOf(h[k].date) == year
                          && h[k].price == LastCloseOfYear(h, yearOf, year).value
                          && forall j :: k < j < |h| ==> yearOf(h[j].date) != year
  {
    LastCloseOfYearAbsent(h, yearOf, year);
    if LastCloseOfYear(h, yearOf, year).Some? {
      var k := LastCloseOfYearAt(h, yearOf, year);
    }
  }

  /** No close exactly when no point is dated in `year`. */
  lemma {:induction false} LastCloseOfYearAbsent(h: History, yearOf: int -> int, year: int)
    ensures LastCloseOfYear(h, yearOf, year).None? <==> forall i :: 0 <= i < |h| ==> yearOf(h[i].date) != year
  {
    if h != [] && yearOf(h[|h| - 1].date) != year {
      var p := h[..|h| - 1];
      LastCloseOfYearAbsent(p, yearOf, year);
      assert forall i :: 0 <= i < |p| ==> p[i] == h[i];
    }
  }

  /** The close found is that of point `k`, the last one dated in `year`. */
  lemma {:induction false} LastCloseOfYearAt(h: History, yearOf: int -> int, year: int) returns (k: nat)
    requires LastCloseOfYear(h, yearOf, year).Some?
    ensures k < |h| && yearOf(h[k].date) == year && h[k].price == LastCloseOfYear(h, yearOf, year).value
    ensures forall j :: k < j < |h| ==> yearOf(h[j].date) != year
  {
    var p := h[..|h| - 1];
    if yearOf(h[|h| - 1].date) == year {
      k := |h| - 1;
    } else {
      assert LastCloseOfYear(h, yearOf, year) == LastCloseOfYear(p, yearOf, year);
      k := LastCloseOfYearAt(p, yearOf, year);
      assert h[k] == p[k];
      forall j | k < j < |h| ensures yearOf(h[j].date) != year {
        if j < |p| {
          assert h[j] == p[j];
        }
      }
    }
  }

  /** The four trailing returns; `None` is the source's `null`. */
  datatype Perf = Perf(ytd: Option<real>, oneYear: Option<real>, twoYear: Option<real>, threeYear: Option<real>)

  /** The four returns from the latest close and the four reference closes. */
  function PerfFrom(latest: real, decPrev: Option<real>, p1: Option<real>, p2: Option<real>, p3: Option<real>,
                    root: (real, nat) -> real): Perf {
    Perf(Ret(latest, decPrev), Ret(latest, p1), Annualized(Ret(latest, p2), 2, root), Annualized(Ret(latest, p3), 3, root))
  }

  /** `computePerf`, specified: nothing for a history of fewer than three points. */
  function PerfOf(h: History, rt: Runtime): (r: Option<Perf>)
    ensures r.None? <==> |h| < MIN_POINTS
  {
    if |h| < MIN_POINTS then None
    else
      Some(PerfFrom(h[|h| - 1].price,
                    LastCloseOfYear(h, rt.yearOf, rt.yearOf(rt.now) - 1),
                    PriceNear(h, DaysBefore(rt.now, 365)),
                    PriceNear(h, DaysBefore(rt.now, 730)),
                    PriceNear(h, DaysBefore(rt.now, 1095)),
                    rt.root))
  }

  /** `computePerf` as the source runs it, with the `priceAt` scan for each horizon. */
  method ComputePerf(h: History, rt: Runtime) returns (perf: Option<Perf>)
    ensures perf == PerfOf(h, rt)
  {
    if |h| < MIN_POINTS {
      return None;
    }
    var latest := h[|h| - 1].price;
    var thisYear := rt.yearOf(rt.now);
    var decPrev := LastCloseOfYear(h, rt.yearOf, thisYear - 1);
    var p1 := PriceAt(h, rt.now, 365);
    var p2 := PriceAt(h, rt.now, 730);
    var p3 := PriceAt(h, rt.now, 1095);
    perf := Some(PerfFrom(latest, decPrev, p1, p2, p3, rt.root));
  }

  /**
   * The year-to-date return compounds the last close of the previous
   * calendar year into the latest close; it is missing exactly when the
   * history has no point in that year or that close is zero.
   */
  lemma YtdMeaning(h: History, rt: Runtime)
    requires |h| >= MIN_POINTS
    ensures var ytd := PerfOf(h, rt).value.ytd;
            var dec := LastCloseOfYear(h, rt.yearOf, rt.yearOf(rt.now) - 1);
            && (ytd.None? <==> dec.None? || dec.value == 0.0)
            && (ytd.Some? ==> Compounds(dec.value, ytd.value, h[|h| - 1].price))
  {
    var latest := h[|h| - 1].price;
    var dec := LastCloseOfYear(h, rt.yearOf, rt.yearOf(rt.now) - 1);
    var ytd := PerfOf(h, rt).value.ytd;
    YtdIsRet(h, rt);
    if ytd.Some? {
      RetCompounds(latest, dec);
    }
  }

  /** The year-to-date field is the return from the previous year's last close. */
  lemma YtdIsRet(h: History, rt: Runtime)
    requires |h| >= MIN_POINTS
    ensures PerfOf(h, rt).value.ytd == Ret(h[|h| - 1].price, LastCloseOfYear(h, rt.yearOf, rt.yearOf(rt.now) - 1))
  {
  }

  /** With no point within 46 days of one year ago, there is no 1-year return. */
  lemma OneYearNeedsNearbyPoint(h: History, rt: Runtime)
    requires |h| >= MIN_POINTS
    requires forall j :: 0 <= j < |h| ==> Dist(h[j].date, DaysBefore(rt.now, 365)) >= TOLERANCE_MS
    ensures PerfOf(h, rt).value.oneYear.None?
  {
    PriceNearMeaning(h, DaysBefore(rt.now, 365));
  }

  /** A 1-year return is anchored at a point within tolerance of one year ago, nearest of all. */
  lemma OneYearAnchored(h: History, rt: Runtime)
    requires |h| >= MIN_POINTS && PerfOf(h, rt).value.oneYear.Some?
    ensures exists k :: && 0 <= k < |h| && Dist(h[k].date, DaysBefore(rt.now, 365)) < TOLERANCE_MS
                        && (forall j :: 0 <= j < |h| ==>
                              Dist(h[k].date, DaysBefore(rt.now, 365)) <= Dist(h[j].date, DaysBefore(rt.now, 365)))
                        && Compounds(h[k].price, PerfOf(h, rt).value.oneYear.value, h[|h| - 1].price)
  {
    var target := DaysBefore(rt.now, 365);
    var past := PriceNear(h, target);
    PriceNearMeaning(h, target);
    RetCompounds(h[|h| - 1].price, past);
    var k :| && 0 <= k < |h| && h[k].price == past.value && Dist(h[k].date, target) < TOLERANCE_MS
             && forall j :: 0 <= j < |h| ==> Dist(h[k].date, target) <= Dist(h[j].date, target);
  }

  /** Two data points are never enough for any return. */
  lemma ShortHistoryHasNoPerf(h: History, rt: Runtime)
    requires |h| < MIN_POINTS
    ensures PerfOf(h, rt).None?
  {
  }

  /**
   * A worked case: prior-year December close 90, latest close 110, so the
   * year-to-date return is 20/90.
   */
  lemma YtdExample(rt: Runtime, d0: int, d1: int, d2: int)
    requires rt.yearOf(d1) == rt.yearOf(rt.now) - 1
    requires rt.yearOf(d2) == rt.yearOf(rt.now)
    ensures PerfOf([PricePoint(d0, 100.0), PricePoint(d1, 90.0), PricePoint(d2, 110.0)], rt).value.ytd
              == Some(20.0 / 90.0)
  {
    var h := [PricePoint(d0, 100.0), PricePoint(d1, 90.0), PricePoint(d2, 110.0)];
    assert h[..2][..1] == [PricePoint(d0, 100.0)];
    assert LastCloseOfYear(h[..2], rt.yearOf, rt.yearOf(rt.now) - 1) == Some(90.0);
  }

  // ------------------------------------------------------------ batching

  /**
   * The batch loop: histories requested four at a time, one result per
   * ticker in ticker order, with a pause between consecutive batches.
   */
  method CollectHistories(tickers: seq<string>, fetch: string -> Option<History>)
    returns (histories: seq<Option<History>>, pauses: nat)
    ensures |histories| == |tickers|
    ensures forall i :: 0 <= i < |tickers| ==> histories[i] == fetch(tickers[i])
    ensures pauses == if tickers == [] then 0 else (|tickers| - 1) / BATCH
  {
    histories, pauses := [], 0;
    var i := 0;
    ghost var m := 0;
    while i < |tickers|
      invariant i == BATCH * m
      invariant i < |tickers| + BATCH
      invariant |histories| == if i <= |tickers| then i else |tickers|
      invariant forall j :: 0 <= j < |histories| ==> histories[j] == fetch(tickers[j])
      invariant pauses == if i < |tickers| || m == 0 then m else m - 1
      decreases |tickers| - i
    {
      var batch := Slice(tickers, i, i + BATCH);
      assert batch == tickers[i..if i + BATCH <= |tickers| then i + BATCH else |tickers|];
      var results := seq(|batch|, k requires 0 <= k < |batch| => fetch(batch[k]));
      for k := 0 to |results|
        invariant |histories| == i + k
        invariant forall j :: 0 <= j < |histories| ==> histories[j] == fetch(tickers[j])
      {
        histories := histories + [results[k]];
      }
      if i + BATCH < |tickers| {
        pauses := pauses + 1;
      }
      i, m := i + BATCH, m + 1;
    }
  }

  // ------------------------------------------------------------ rows

  /** One row written back to the `etfs` table. */
  datatype PerfRow = PerfRow(ticker: string, perf: Perf)

  /** The row for one ticker: none when the history is missing or too short. */
  function RowFor(ticker: string, history: Option<History>, rt: Runtime): (row: seq<PerfRow>)
    ensures |row| <= 1
  {
    if history.Some? && PerfOf(history.value, rt).Some? then [PerfRow(ticker, PerfOf(history.value, rt).value)]
    else []
  }

  /** The rows for the tickers whose history exists and yields returns, in ticker order. */
  function PerfRows(tickers: seq<string>, histories: seq<Option<History>>, rt: Runtime): (rows: seq<PerfRow>)
    requires |histories| == |tickers|
    ensures |rows| <= |tickers|
  {
    if tickers == [] then []
    else
      var n := |tickers| - 1;
      PerfRows(tickers[..n], histories[..n], rt) + RowFor(tickers[n], histories[n], rt)
  }

  /** The number of tickers whose history has at least three points. */
  function Usable(histories: seq<Option<History>>): nat {
    if histories == [] then 0
    else
      var n := |histories| - 1;
      Usable(histories[..n]) + (if histories[n].Some? && |histories[n].value| >= MIN_POINTS then 1 else 0)
  }

  /** A row is written for exactly the tickers with at least three usable points. */
  lemma {:induction false} PerfRowsCount(tickers: seq<string>, histories: seq<Option<History>>, rt: Runtime)
    requires |histories| == |tickers|
    ensures |PerfRows(tickers, histories, rt)| == Usable(histories)
  {
    if tickers != [] {
      var n := |tickers| - 1;
      PerfRowsCount(tickers[..n], histories[..n], rt);
    }
  }

  /** At most every history is usable. */
  lemma {:induction false} UsableAtMost(histories: seq<Option<History>>)
    ensures Usable(histories) <= |histories|
  {
    if histories != [] {
      UsableAtMost(histories[..|histories| - 1]);
    }
  }

  /** Usable histories are counted one by one, so splitting the list splits the count. */
  lemma {:induction false} UsableAppend(h1: seq<Option<History>>, h2: seq<Option<History>>)
    ensures Usable(h1 + h2) == Usable(h1) + Usable(h2)
    decreases |h2|
  {
    if h2 == [] {
      assert h1 + h2 == h1;
    } else {
      var n := |h2| - 1;
      assert (h1 + h2)[..|h1 + h2| - 1] == h1 + h2[..n];
      assert (h1 + h2)[|h1 + h2| - 1] == h2[n];
      UsableAppend(h1, h2[..n]);
    }
  }

  /** The row for one ticker: skipped without a history or without returns. */
  method RowOf(ticker: string, history: Option<History>, rt: Runtime) returns (row: seq<PerfRow>)
    ensures row == RowFor(ticker, history, rt)
  {
    if history.None? {
      return [];
    }
    var perf := ComputePerf(history.value, rt);
    if perf.None? {
      return [];
    }
    row := [PerfRow(ticker, perf.value)];
  }

  /** The row-building loop. */
  method BuildRows(tickers: seq<string>, histories: seq<Option<History>>, rt: Runtime) returns (rows: seq<PerfRow>)
    requires |histories| == |tickers|
    ensures rows == PerfRows(tickers, histories, rt)
    ensures |rows| == Usable(histories)
  {
    rows := [];
    for i := 0 to |tickers|
      invariant rows == PerfRows(tickers[..i], histories[..i], rt)
    {
      assert tickers[..i + 1][..i] == tickers[..i];
      assert histories[..i + 1][..i] == histories[..i];
      var row := RowOf(tickers[i], histories[i], rt);
      rows := rows + row;
    }
    assert tickers[..|tickers|] == tickers && histories[..|histories|] == histories;
    PerfRowsCount(tickers, histories, rt);
  }
}
