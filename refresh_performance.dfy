/**
 * POST /api/cron/refresh-performance: one page of tickers from the `etfs`
 * table, their Stooq histories fetched four at a time, and a returns row
 * written for every ticker whose history yields returns.
 */
module RefreshPerformance {
  import opened Wrappers
  import opened Text
  import opened Performance
  import opened CronAuth

  /** The largest page a call may ask for. */
  const MAX_PAGE := 200

  /** The request: its Authorization header and the raw `offset` and `limit` parameters. */
  datatype Request = Request(authorization: Option<string>, offsetParam: Option<string>, limitParam: Option<string>)

  /** What the endpoint answers; an offset of `None` is NaN (sent as `null`). */
  datatype Outcome =
    | Unauthorized                    // 401
    | NotConfigured                   // 500, missing database settings
    | ReadFailed                      // 500, the page could not be read
    | Page(offset: Option<int>, processed: nat, updated: nat, hasMore: bool, dbError: Option<string>)

  /** `parseInt(offset ?? '0', 10)`; `None` is NaN. */
  function PageOffset(req: Request, parseInt: string -> Option<int>): (o: Option<int>)
    ensures req.offsetParam.None? ==> o == Some(0)
    ensures req.offsetParam.Some? ==> o == parseInt(req.offsetParam.value)
  {
    if req.offsetParam.None? then Some(0) else parseInt(req.offsetParam.value)
  }

  /** `Math.min(parseInt(limit ?? '200', 10), 200)`; `None` is NaN, which `Math.min` passes on. */
  function PageLimit(req: Request, parseInt: string -> Option<int>): (n: Option<int>)
    ensures n.Some? ==> n.value <= MAX_PAGE
    ensures req.limitParam.None? ==> n == Some(MAX_PAGE)
    ensures req.limitParam.Some? && parseInt(req.limitParam.value).None? ==> n.None?
    ensures req.limitParam.Some? && parseInt(req.limitParam.value).Some? ==>
              n == Some(Min(parseInt(req.limitParam.value).value, MAX_PAGE))
  {
    var parsed := if req.limitParam.None? then Some(MAX_PAGE) else parseInt(req.limitParam.value);
    if parsed.None? then None else Some(Min(parsed.value, MAX_PAGE))
  }

  /** The last row of the range, `offset + limit - 1`: NaN when either bound is. */
  function RangeEnd(offset: Option<int>, limit: Option<int>): (e: Option<int>)
    ensures e.Some? <==> offset.Some? && limit.Some?
    ensures e.Some? ==> e.value - offset.value + 1 == limit.value
  {
    if offset.Some? && limit.Some? then Some(offset.value + limit.value - 1) else None
  }

  /** `tickers.length === limit`: never true of a NaN limit. */
  predicate FullPage(count: nat, limit: Option<int>) {
    limit.Some? && count == limit.value
  }

  /** With a NaN limit no page is ever reported as having more. */
  lemma NaNLimitHasNoMore(count: nat)
    ensures !FullPage(count, None)
  {
  }

  /**
   * The handler.  `parseInt` reads a decimal parameter (`None` is NaN);
   * `db(from, to)` is the ordered ticker page for the inclusive row range,
   * either bound possibly NaN, or `None` when the read fails; `stooq` answers each history
   * URL; `upsert` writes the rows and reports an error message, if any.
   * `written` are the rows sent to the database.
   */
  method Post(req: Request, env: Env, parseInt: string -> Option<int>,
              db: (Option<int>, Option<int>) -> Option<seq<string>>,
              stooq: string -> StooqResponse, upsert: seq<PerfRow> -> Option<string>, rt: Runtime)
    returns (out: Outcome, written: seq<PerfRow>)
    ensures out.Unauthorized? <==> !Authorized(env.cronSecret, req.authorization)
    ensures out.NotConfigured? <==> Authorized(env.cronSecret, req.authorization) && !Configured(env)
    ensures out.ReadFailed? <==> Authorized(env.cronSecret, req.authorization) && Configured(env)
                                  && db(PageOffset(req, parseInt), RangeEnd(PageOffset(req, parseInt), PageLimit(req, parseInt))).None?
    ensures out.Page? ==>
              var page := db(PageOffset(req, parseInt), RangeEnd(PageOffset(req, parseInt), PageLimit(req, parseInt))).value;
              var histories := HistoriesFor(page, FetchHistory(stooq, rt));
              && out.offset == PageOffset(req, parseInt)
              && out.processed == |page|
              && written == PerfRows(page, histories, rt)
              && out.updated == |written| == Usable(histories)
              && out.hasMore == (|page| > 0 && FullPage(|page|, PageLimit(req, parseInt)))
              && out.dbError == (if written == [] then None else upsert(written))
    ensures out.Page? ==> out.updated <= out.processed
    ensures out.Page? && out.processed == 0 ==> out.updated == 0 && !out.hasMore
    ensures !out.Page? ==> written == []
  {
    written := [];
    if !Authorized(env.cronSecret, req.authorization) {
      return Unauthorized, written;
    }
    var offset := PageOffset(req, parseInt);
    var limit := PageLimit(req, parseInt);
    if !Configured(env) {
      return NotConfigured, written;
    }
    var rows := db(offset, RangeEnd(offset, limit));
    if rows.None? {
      return ReadFailed, written;
    }
    var tickers := rows.value;
    if |tickers| == 0 {
      return Page(offset, 0, 0, false, None), written;
    }
    var histories, pauses := CollectHistories(tickers, FetchHistory(stooq, rt));
    assert histories == HistoriesFor(tickers, FetchHistory(stooq, rt));
    written := BuildRows(tickers, histories, rt);
    var dbError := None;
    if |written| > 0 {
      dbError := upsert(written);
    }
    out := Page(offset, |tickers|, |written|, FullPage(|tickers|, limit), dbError);
  }
}
