/**
 * The backfill script: every ticker of the `etfs` table, in database pages of
 * 200, each page's histories fetched four at a time and its returns rows
 * written; the script reports how many rows it wrote in total.
 */
module Backfill {
  import opened Wrappers
  import opened Chunking
  import opened Performance

  /** Tickers handled per database page. */
  const CHUNK := 200

  /** The script's own settings: the public URL first, the runtime URL second (the reverse of the cron endpoints). */
  datatype Settings = Settings(publicUrl: Option<string>, url: Option<string>, serviceKey: Option<string>, anonKey: Option<string>)

  /** The script only starts with both a URL and a key that are non-empty. */
  predicate CanStart(st: Settings) {
    var url := if st.publicUrl.Some? then st.publicUrl else st.url;
    var key := if st.serviceKey.Some? then st.serviceKey else st.anonKey;
    url.Some? && url.value != "" && key.Some? && key.value != ""
  }

  /** The end of the page that starts at `offset`. */
  function PageEnd(n: nat, offset: nat, size: nat): nat { if offset + size <= n then offset + size else n }

  /** The usable count up to the end of a page is the count before it plus the page's own. */
  lemma PageCount(tickers: seq<string>, fetch: string -> Option<History>, offset: nat, size: nat)
    requires offset <= |tickers|
    ensures Usable(HistoriesFor(tickers[..PageEnd(|tickers|, offset, size)], fetch))
              == Usable(HistoriesFor(tickers[..offset], fetch)) + Usable(HistoriesFor(Slice(tickers, offset, offset + size), fetch))
  {
    var end := PageEnd(|tickers|, offset, size);
    assert Slice(tickers, offset, offset + size) == tickers[offset..end];
    assert tickers[..end] == tickers[..offset] + tickers[offset..end];
    HistoriesForAppend(tickers[..offset], tickers[offset..end], fetch);
    UsableAppend(HistoriesFor(tickers[..offset], fetch), HistoriesFor(tickers[offset..end], fetch));
  }

  /** Histories of consecutive ticker lists are consecutive. */
  lemma HistoriesForAppend(a: seq<string>, b: seq<string>, fetch: string -> Option<History>)
    ensures HistoriesFor(a + b, fetch) == HistoriesFor(a, fetch) + HistoriesFor(b, fetch)
  {
    var l, r := HistoriesFor(a + b, fetch), HistoriesFor(a, fetch) + HistoriesFor(b, fetch);
    forall i | 0 <= i < |l| ensures l[i] == r[i] {
      if i < |a| {
        assert (a + b)[i] == a[i];
      } else {
        assert (a + b)[i] == b[i - |a|];
      }
    }
  }

  /** `processChunk`: the rows written for one page, and their number. */
  method ProcessChunk(tickers: seq<string>, fetch: string -> Option<History>, rt: Runtime)
    returns (updated: nat, rows: seq<PerfRow>)
    ensures rows == PerfRows(tickers, HistoriesFor(tickers, fetch), rt)
    ensures updated == |rows| == Usable(HistoriesFor(tickers, fetch))
    ensures updated <= |tickers|
  {
    var histories, pauses := CollectHistories(tickers, fetch);
    assert histories == HistoriesFor(tickers, fetch);
    rows := BuildRows(tickers, histories, rt);
    updated := |rows|;
  }

  /**
   * `main`: `stooq` answers each history URL, read by the same `fetchStooq`
   * as the cron endpoint.  `None` when the script exits for missing settings
   * or a failed read; otherwise the total written, which counts every ticker
   * of the table whose history yields returns, with the pages covering the
   * table in order.
   */
  method Run(st: Settings, allRows: Option<seq<string>>, stooq: string -> StooqResponse, rt: Runtime)
    returns (totalUpdated: Option<nat>, pages: seq<seq<string>>)
    ensures totalUpdated.None? <==> !CanStart(st) || allRows.None?
    ensures totalUpdated.Some? ==> pages == Chunked(allRows.value, CHUNK)
    ensures totalUpdated.Some? ==> totalUpdated.value == Usable(HistoriesFor(allRows.value, FetchHistory(stooq, rt)))
    ensures totalUpdated.Some? ==> totalUpdated.value <= |allRows.value|
  {
    pages := [];
    if !CanStart(st) || allRows.None? {
      return None, pages;
    }
    var total;
    total, pages := ProcessAll(allRows.value, CHUNK, FetchHistory(stooq, rt), rt);
    totalUpdated := Some(total);
  }

  /** The page loop of `main`: pages of `size` in order, the written rows summed. */
  method ProcessAll(tickers: seq<string>, size: nat, fetch: string -> Option<History>, rt: Runtime)
    returns (total: nat, pages: seq<seq<string>>)
    requires size > 0
    ensures pages == Chunked(tickers, size)
    ensures total == Usable(HistoriesFor(tickers, fetch))
    ensures total <= |tickers|
  {
    total, pages := 0, [];
    var offset := 0;
    while offset < |tickers|
      invariant CutUpTo(tickers, size, offset, pages)
      invariant offset <= |tickers| ==> total == Usable(HistoriesFor(tickers[..offset], fetch))
      invariant offset > |tickers| ==> total == Usable(HistoriesFor(tickers, fetch))
      decreases |tickers| - offset
    {
      var chunk := Slice(tickers, offset, offset + size);
      CutStep(tickers, size, offset, pages);
      PageCount(tickers, fetch, offset, size);
      var updated, rows := ProcessChunk(chunk, fetch, rt);
      total := total + updated;
      pages := pages + [chunk];
      offset := offset + size;
      if offset >= |tickers| {
        assert tickers[..PageEnd(|tickers|, offset - size, size)] == tickers;
      }
    }
    CutDone(tickers, size, offset, pages);
    if offset == |tickers| {
      assert tickers[..offset] == tickers;
    }
    UsableAtMost(HistoriesFor(tickers, fetch));
  }
}
