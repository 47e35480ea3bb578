/**
 * The search endpoint: up to four ETFs whose ticker starts with the query,
 * then ETFs whose name contains it, without repeating a ticker, cut to the
 * requested limit (at most twenty).  The `etfs` table is given in the order
 * the database returns it (by AUM, descending); `ilike` is ASCII
 * case-insensitive matching with the query taken literally.
 */
module Search {
  import opened Wrappers
  import opened Text
  import opened Sorting

  const DEFAULT_LIMIT := 8
  const MAX_LIMIT := 20
  const TICKER_ROWS := 4

  datatype EtfRow = EtfRow(ticker: string, name: string, issuer: string, category: string, aum: Option<real>)

  /** The database: the table in AUM order, and whether each of the two queries succeeds. */
  datatype Db = Db(table: seq<EtfRow>, tickerQueryOk: bool, nameQueryOk: bool)

  /** `ilike 'q%'`. */
  predicate TickerMatch(r: EtfRow, q: string) { StartsWith(Lower(r.ticker), Lower(q)) }

  /** `ilike '%q%'`. */
  predicate NameMatch(r: EtfRow, q: string) { Contains(Lower(r.name), Lower(q)) }

  /** The ticker-prefix query, `.limit(4)`; a failed query gives `data: null`, read as `[]`. */
  function TickerRows(db: Db, q: string): (rows: seq<EtfRow>)
    ensures |rows| <= TICKER_ROWS
    ensures forall r :: r in rows ==> r in db.table && TickerMatch(r, q)
  {
    if db.tickerQueryOk then SliceTo(Filter(db.table, (r: EtfRow) => TickerMatch(r, q)), TICKER_ROWS) else []
  }

  /** The name query, `.limit(limit)`; a negative limit is read as no rows. */
  function NameRows(db: Db, q: string, limit: int): (rows: seq<EtfRow>)
    ensures |rows| <= Max(limit, 0)
    ensures forall r :: r in rows ==> r in db.table && NameMatch(r, q)
  {
    if db.nameQueryOk then SliceTo(Filter(db.table, (r: EtfRow) => NameMatch(r, q)), Max(limit, 0)) else []
  }

  function Tickers(rows: seq<EtfRow>): set<string> {
    set r | r in rows :: r.ticker
  }

  /** The name rows whose ticker is not among the ticker rows, in order. */
  function Unseen(tickerRows: seq<EtfRow>, nameRows: seq<EtfRow>): seq<EtfRow> {
    var seen := Tickers(tickerRows);
    Filter(nameRows, (e: EtfRow) => e.ticker !in seen)
  }

  /** The ticker rows, then the name rows whose ticker is not among them, sliced to `limit` (`slice(0, limit)`). */
  function Combine(tickerRows: seq<EtfRow>, nameRows: seq<EtfRow>, limit: int): (r: seq<EtfRow>)
    ensures |r| <= |tickerRows| + |nameRows|
    ensures limit >= 0 ==> |r| <= limit
    ensures limit >= 0 ==> |r| == Min(limit, |tickerRows| + |Unseen(tickerRows, nameRows)|)
    ensures forall i :: 0 <= i < |r| && i < |tickerRows| ==> r[i] == tickerRows[i]
    ensures forall i :: |tickerRows| <= i < |r| ==> r[i] in nameRows && r[i].ticker !in Tickers(tickerRows)
    ensures r <= tickerRows + Unseen(tickerRows, nameRows)
  {
    var rest := Unseen(tickerRows, nameRows);
    var all := tickerRows + rest;
    var r := SliceTo(all, limit);
    assert forall i :: 0 <= i < |r| ==> r[i] == all[i];
    assert forall i :: |tickerRows| <= i < |all| ==> all[i] == rest[i - |tickerRows|];
    r
  }

  /** With room for all of them, every ticker match and every other name match is returned. */
  lemma CombineKeepsAll(tickerRows: seq<EtfRow>, nameRows: seq<EtfRow>, limit: int)
    requires |tickerRows| + |nameRows| <= limit
    ensures forall e :: e in tickerRows ==> e in Combine(tickerRows, nameRows, limit)
    ensures forall e :: e in nameRows && e.ticker !in Tickers(tickerRows) ==> e in Combine(tickerRows, nameRows, limit)
  {
    var rest := Unseen(tickerRows, nameRows);
    assert SliceTo(tickerRows + rest, limit) == tickerRows + rest;
  }

  /** The name rows after the ticker rows keep the order of the name query. */
  lemma CombineInOrder(tickerRows: seq<EtfRow>, nameRows: seq<EtfRow>, limit: int)
    ensures var r := Combine(tickerRows, nameRows, limit);
            |r| >= |tickerRows| ==> Subsequence(r[|tickerRows|..], nameRows)
  {
    var r := Combine(tickerRows, nameRows, limit);
    if |r| >= |tickerRows| {
      var rest := Unseen(tickerRows, nameRows);
      assert r[|tickerRows|..] <= rest by {
        assert r <= tickerRows + rest;
        assert forall i :: |tickerRows| <= i < |r| ==> r[i] == (tickerRows + rest)[i] == rest[i - |tickerRows|];
      }
      FilterInOrder(nameRows, (e: EtfRow) => e.ticker !in Tickers(tickerRows));
      SubsequencePrefix(r[|tickerRows|..], rest, nameRows);
    }
  }

  /** `Math.min(parseInt(limit ?? '8', 10), 20)`; `None` is NaN. */
  function Limit(limitParam: Option<string>, parseInt: string -> Option<int>): (limit: Option<int>)
    ensures limitParam.None? ==> limit == Some(DEFAULT_LIMIT)
    ensures limit.Some? ==> limit.value <= MAX_LIMIT
  {
    var n := if limitParam.None? then Some(DEFAULT_LIMIT) else parseInt(limitParam.value);
    if n.None? then None else Some(Min(n.value, MAX_LIMIT))
  }

  /**
   * `GET`.  A blank query and a missing client give `[]`; a NaN limit
   * slices everything away.
   */
  function Get(qParam: Option<string>, limitParam: Option<string>, parseInt: string -> Option<int>, db: Option<Db>)
    : (r: seq<EtfRow>)
    ensures Trim(qParam.GetOr("")) == "" ==> r == []
    ensures db.None? || Limit(limitParam, parseInt).None? ==> r == []
    ensures |r| <= MAX_LIMIT
    ensures Limit(limitParam, parseInt).Some? && Limit(limitParam, parseInt).value >= 0 ==> |r| <= Limit(limitParam, parseInt).value
    ensures r != [] ==>
              && db.Some? && Limit(limitParam, parseInt).Some?
              && var q := Trim(qParam.GetOr(""));
                 var top := TickerRows(db.value, q);
                 && (forall i :: 0 <= i < |r| && i < |top| ==> r[i] == top[i] && TickerMatch(r[i], q))
                 && (forall i :: |top| <= i < |r| ==> NameMatch(r[i], q) && r[i].ticker !in Tickers(top))
                 && (forall e :: e in r ==> e in db.value.table)
                 && r <= top + Unseen(top, NameRows(db.value, q, Limit(limitParam, parseInt).value))
  {
    var q := Trim(qParam.GetOr(""));
    var limit := Limit(limitParam, parseInt);
    if |q| < 1 || db.None? || limit.None? then []
    else
      var top := TickerRows(db.value, q);
      var named := NameRows(db.value, q, limit.value);
      var r := Combine(top, named, limit.value);
      assert |r| <= MAX_LIMIT by {
        if limit.value < 0 {
          assert |r| <= |top| + |named| <= TICKER_ROWS;
        }
      }
      r
  }

  /**
   * For a non-blank query, a client and a limit that is a number `n >= 0`,
   * the answer holds `min(n, ticker rows + unseen name rows)` rows, and,
   * when both lists fit, every ticker match and every name match of
   * another ticker; the name matches shown keep the name query's order.
   */
  lemma GetMeaning(qParam: Option<string>, limitParam: Option<string>, parseInt: string -> Option<int>, db: Option<Db>,
                   q: string, n: int)
    requires q == Trim(qParam.GetOr("")) && q != "" && db.Some?
    requires Limit(limitParam, parseInt) == Some(n) && n >= 0
    ensures |Get(qParam, limitParam, parseInt, db)| == Min(n, |TickerRows(db.value, q)| + |Unseen(TickerRows(db.value, q), NameRows(db.value, q, n))|)
    ensures |TickerRows(db.value, q)| + |NameRows(db.value, q, n)| <= n ==>
              && (forall e :: e in TickerRows(db.value, q) ==> e in Get(qParam, limitParam, parseInt, db))
              && (forall e :: e in NameRows(db.value, q, n) && e.ticker !in Tickers(TickerRows(db.value, q)) ==>
                    e in Get(qParam, limitParam, parseInt, db))
    ensures |Get(qParam, limitParam, parseInt, db)| >= |TickerRows(db.value, q)| ==>
              Subsequence(Get(qParam, limitParam, parseInt, db)[|TickerRows(db.value, q)|..], NameRows(db.value, q, n))
  {
    var top := TickerRows(db.value, q);
    var named := NameRows(db.value, q, n);
    assert Get(qParam, limitParam, parseInt, db) == Combine(top, named, n);
    CombineInOrder(top, named, n);
    if |top| + |named| <= n {
      CombineKeepsAll(top, named, n);
    }
  }
}
