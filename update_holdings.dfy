/**
 * The holdings script: the ticker dictionary downloaded once, then for each
 * of thirty target ETFs its latest NPORT-P filing located, parsed with the
 * same parser as the library and its holdings written as rows, counting the
 * tickers saved and skipped.  The rate-limit pauses are not modelled.
 */
module UpdateHoldings {
  import opened Wrappers
  import opened Sorting
  import opened Quotes
  import opened EdgarHoldings
  import ImportAllEtfs

  /** The settings the script reads; `None` is an unset variable. */
  datatype Settings = Settings(url: Option<string>, serviceKey: Option<string>, anonKey: Option<string>)

  /** `SERVICE_KEY ?? ANON_KEY`: an empty service key is kept, not replaced. */
  function Key(st: Settings): Option<string> {
    if st.serviceKey.Some? then st.serviceKey else st.anonKey
  }

  /** The script goes on only with a non-empty URL and a non-empty key. */
  predicate CanStart(st: Settings) {
    TruthyStr(st.url) && TruthyStr(Key(st))
  }

  /** An empty service key stops the script even when the anonymous key is set. */
  lemma EmptyServiceKeyBlocks(st: Settings)
    requires st.serviceKey == Some("") && TruthyStr(st.anonKey)
    ensures !CanStart(st)
  {
  }

  /** The requests of one filing lookup, answered by URL, and `parseFloat`. */
  datatype Edgar = Edgar(submissions: string -> Submissions, index: string -> IndexPage,
                         xml: string -> XmlReply, parse: string -> Option<real>)

  /** How `fetchHoldingsForTicker` ended: it threw, it found nothing (`null`), or holdings with their date. */
  datatype Attempt = AttemptThrew | NoData | Got(holdings: seq<Holding>, asOfDate: Option<string>)

  /**
   * `fetchHoldingsForTicker`, specified.  Unlike the library, a failed
   * submissions request or XML download throws, and a failed index page
   * only falls back to `primary_doc.xml`.
   */
  function AttemptFor(cik: string, e: Edgar): (a: Attempt)
    ensures a.Got? ==>
              && 0 < |a.holdings| <= LIMIT
              && DescendingBy(a.holdings, WeightOf)
              && forall h :: h in a.holdings ==> h.name != "" && h.weight > 0.0
  {
    match e.submissions(SUBMISSIONS + cik + ".json")
    case SubmissionsThrew => AttemptThrew
    case SubmissionsNotOk => NoData
    case SubmissionsJson(recent) =>
      var info := LatestNport(recent);
      if info.None? then NoData
      else if info.value.accession.None? then AttemptThrew
      else
        var accession := info.value.accession.value;
        var dir := DirUrl(cik, accession);
        match e.xml(XmlUrl(dir, e.index(IndexUrl(dir, accession))))
        case XmlThrew => AttemptThrew
        case XmlNotOk => NoData
        case XmlText(blocks) =>
          var hs := TopHoldings(blocks, e.parse, LIMIT);
          if hs == [] then NoData else Got(hs, info.value.date)
  }

  /** The submissions request decides the early exits: a throw or a filing without accession number throws, no filing is no data. */
  lemma AttemptForFiling(cik: string, e: Edgar)
    ensures e.submissions(SUBMISSIONS + cik + ".json").SubmissionsThrew? ==> AttemptFor(cik, e) == AttemptThrew
    ensures e.submissions(SUBMISSIONS + cik + ".json").SubmissionsNotOk? ==> AttemptFor(cik, e) == NoData
    ensures e.submissions(SUBMISSIONS + cik + ".json").SubmissionsJson? ==>
              var info := LatestNport(e.submissions(SUBMISSIONS + cik + ".json").recent);
              && (info.None? ==> AttemptFor(cik, e) == NoData)
              && (info.Some? && info.value.accession.None? ==> AttemptFor(cik, e) == AttemptThrew)
  {
  }

  /**
   * With an NPORT-P filing that has an accession number, the document
   * decides: its top holdings with the filing date, no data when it yields
   * none or answers not-ok, and a throw when its download throws.
   */
  lemma AttemptFromDocument(cik: string, e: Edgar, recent: Option<Recent>, info: NportInfo, accession: string, dir: string,
                            reply: XmlReply)
    requires e.submissions(SUBMISSIONS + cik + ".json") == SubmissionsJson(recent)
    requires LatestNport(recent) == Some(info) && info.accession == Some(accession)
    requires dir == DirUrl(cik, accession) && reply == e.xml(XmlUrl(dir, e.index(IndexUrl(dir, accession))))
    ensures reply.XmlText? && TopHoldings(reply.blocks, e.parse, LIMIT) != [] ==>
              AttemptFor(cik, e) == Got(TopHoldings(reply.blocks, e.parse, LIMIT), info.date)
    ensures reply.XmlText? && TopHoldings(reply.blocks, e.parse, LIMIT) == [] ==> AttemptFor(cik, e) == NoData
    ensures reply.XmlNotOk? ==> AttemptFor(cik, e) == NoData
    ensures reply.XmlThrew? ==> AttemptFor(cik, e) == AttemptThrew
  {
  }

  method FetchHoldingsForTicker(cik: string, e: Edgar) returns (a: Attempt)
    ensures a == AttemptFor(cik, e)
  {
    var reply := e.submissions(SUBMISSIONS + cik + ".json");
    if reply.SubmissionsThrew? {
      return AttemptThrew;
    }
    if reply.SubmissionsNotOk? {
      return NoData;
    }
    var info := GetLatestNportInfo(reply.recent);
    if info.None? {
      return NoData;
    }
    if info.value.accession.None? {
      return AttemptThrew;
    }
    var accession := info.value.accession.value;
    var dir := DirUrl(cik, accession);
    var xmlUrl := XmlUrl(dir, e.index(IndexUrl(dir, accession)));
    var answer := e.xml(xmlUrl);
    if answer.XmlThrew? {
      return AttemptThrew;
    }
    if answer.XmlNotOk? {
      return NoData;
    }
    var holdings := ParseNportHoldings(answer.blocks, e.parse, LIMIT);
    if |holdings| == 0 {
      return NoData;
    }
    return Got(holdings, info.value.date);
  }

  /** One row of the `holdings` table. */
  datatype HoldingRow = HoldingRow(etfTicker: string, asOfDate: Option<string>, holdingName: string,
                                   holdingTicker: Option<string>, weight: real, valueUsd: int)

  /** One row per holding, in order, all dated with the filing date; the value is rounded to whole dollars. */
  function RowsOf(ticker: string, asOfDate: Option<string>, hs: seq<Holding>): (rows: seq<HoldingRow>)
    ensures |rows| == |hs|
    ensures forall i :: 0 <= i < |hs| ==>
              && rows[i].etfTicker == ticker && rows[i].asOfDate == asOfDate
              && rows[i].holdingName == hs[i].name && rows[i].holdingTicker == hs[i].ticker
              && rows[i].weight == hs[i].weight
              && rows[i].valueUsd as real - 0.5 <= hs[i].value < rows[i].valueUsd as real + 0.5
  {
    seq(|hs|, i requires 0 <= i < |hs| =>
      HoldingRow(ticker, asOfDate, hs[i].name, hs[i].ticker, hs[i].weight, ImportAllEtfs.Round(hs[i].value)))
  }

  /** What happened to one target ticker. */
  datatype TickerOutcome =
    | NoCik                               // not in the dictionary: skipped
    | Skipped                             // the lookup threw or found no holdings: skipped
    | UpsertFailed(rows: seq<HoldingRow>) // the write reported an error: counted nowhere
    | Saved(rows: seq<HoldingRow>)        // written: processed

  /** One iteration of the main loop; `upsert` reports whether the write returned an error. */
  function OutcomeOf(m: map<string, string>, ticker: string, e: Edgar, upsert: seq<HoldingRow> -> bool): TickerOutcome {
    if ticker !in m || m[ticker] == "" then NoCik
    else
      match AttemptFor(m[ticker], e)
      case Got(hs, asOfDate) =>
        var rows := RowsOf(ticker, asOfDate, hs);
        if upsert(rows) then UpsertFailed(rows) else Saved(rows)
      case _ => Skipped
  }

  /**
   * A ticker is skipped for lack of a CIK exactly when the dictionary has
   * none for it; a ticker whose write was attempted has between one and 15
   * rows, those of its holdings.
   */
  lemma OutcomeOfMeaning(m: map<string, string>, ticker: string, e: Edgar, upsert: seq<HoldingRow> -> bool)
    ensures var o := OutcomeOf(m, ticker, e, upsert);
            && (o.NoCik? <==> ticker !in m || m[ticker] == "")
            && (o.Saved? || o.UpsertFailed? ==>
                  && ticker in m
                  && AttemptFor(m[ticker], e).Got?
                  && o.rows == RowsOf(ticker, AttemptFor(m[ticker], e).asOfDate, AttemptFor(m[ticker], e).holdings)
                  && 0 < |o.rows| <= LIMIT)
  {
  }

  /** `processed`: the tickers whose rows were written. */
  function SavedCount(os: seq<TickerOutcome>): nat {
    if os == [] then 0 else SavedCount(os[..|os| - 1]) + (if os[|os| - 1].Saved? then 1 else 0)
  }

  /** `skipped`: the tickers without a CIK, with a failed lookup or without holdings. */
  function SkippedCount(os: seq<TickerOutcome>): nat {
    if os == [] then 0 else SkippedCount(os[..|os| - 1]) + (if os[|os| - 1].NoCik? || os[|os| - 1].Skipped? then 1 else 0)
  }

  /** The tickers whose write failed. */
  function FailedCount(os: seq<TickerOutcome>): nat {
    if os == [] then 0 else FailedCount(os[..|os| - 1]) + (if os[|os| - 1].UpsertFailed? then 1 else 0)
  }

  /** Each ticker is counted at most once: saved, skipped and failed writes add up to the number of targets. */
  lemma {:induction false} CountsAddUp(os: seq<TickerOutcome>)
    ensures SavedCount(os) + SkippedCount(os) + FailedCount(os) == |os|
    ensures SavedCount(os) + SkippedCount(os) <= |os|
  {
    if os != [] {
      CountsAddUp(os[..|os| - 1]);
    }
  }

  /** Every ticker was saved exactly when no write failed and nothing was skipped. */
  lemma {:induction false} AllSavedIff(os: seq<TickerOutcome>)
    ensures SavedCount(os) == |os| <==> forall i :: 0 <= i < |os| ==> os[i].Saved?
  {
    CountsAddUp(os);
    if os != [] {
      var front := os[..|os| - 1];
      AllSavedIff(front);
      assert forall i :: 0 <= i < |front| ==> front[i] == os[i];
    }
  }

  /** The counters after one more outcome. */
  lemma CountsSnoc(os: seq<TickerOutcome>, o: TickerOutcome)
    ensures SavedCount(os + [o]) == SavedCount(os) + (if o.Saved? then 1 else 0)
    ensures SkippedCount(os + [o]) == SkippedCount(os) + (if o.NoCik? || o.Skipped? then 1 else 0)
  {
    assert (os + [o])[..|os|] == os;
  }

  /** The body of the main loop for one ticker. */
  method ProcessTicker(m: map<string, string>, ticker: string, e: Edgar, upsert: seq<HoldingRow> -> bool)
    returns (o: TickerOutcome)
    ensures o == OutcomeOf(m, ticker, e, upsert)
  {
    if ticker !in m || m[ticker] == "" {
      return NoCik;
    }
    var result := FetchHoldingsForTicker(m[ticker], e);
    if !result.Got? {
      return Skipped;
    }
    var rows := RowsOf(ticker, result.asOfDate, result.holdings);
    if upsert(rows) {
      o := UpsertFailed(rows);
    } else {
      o := Saved(rows);
    }
  }

  /** The main loop over the targets, with its two counters. */
  method ProcessTickers(targets: seq<string>, m: map<string, string>, e: Edgar, upsert: seq<HoldingRow> -> bool)
    returns (outcomes: seq<TickerOutcome>, processed: nat, skipped: nat)
    ensures |outcomes| == |targets|
    ensures forall i :: 0 <= i < |targets| ==> outcomes[i] == OutcomeOf(m, targets[i], e, upsert)
    ensures processed == SavedCount(outcomes) && skipped == SkippedCount(outcomes)
    ensures processed + skipped <= |targets|
  {
    outcomes, processed, skipped := [], 0, 0;
    for i := 0 to |targets|
      invariant |outcomes| == i
      invariant forall j :: 0 <= j < i ==> outcomes[j] == OutcomeOf(m, targets[j], e, upsert)
      invariant processed == SavedCount(outcomes) && skipped == SkippedCount(outcomes)
    {
      var o := ProcessTicker(m, targets[i], e, upsert);
      CountsSnoc(outcomes, o);
      if o.Saved? {
        processed := processed + 1;
      } else if o.NoCik? || o.Skipped? {
        skipped := skipped + 1;
      }
      outcomes := outcomes + [o];
    }
    CountsAddUp(outcomes);
  }

  /** What the script ends with. */
  datatype Report =
    | Exited                                    // missing settings: soft exit
    | Crashed                                   // the dictionary download failed: `main` rejects
    | Done(mappings: nat, outcomes: seq<TickerOutcome>, processed: nat, skipped: nat)

  /** The tickers the script covers, by assets; QQQ is listed twice. */
  const TARGET_TICKERS := [
    "SPY", "IVV", "VOO", "VTI", "QQQ", "BND", "AGG", "VEA", "IEFA", "VWO",
    "GLD", "TLT", "VUG", "VTV", "SCHD", "VYM", "XLK", "XLF", "XLE", "QQQ",
    "IWM", "VCIT", "LQD", "VNQ", "SOXX", "SMH", "VGT", "RSP", "TQQQ", "SCHB"
  ]

  /**
   * `main`.  The dictionary here is looked up with the target ticker as it
   * is (the targets are already upper case), and its download failing ends
   * the script.
   */
  method Run(st: Settings, doc: Directory, e: Edgar, upsert: seq<HoldingRow> -> bool) returns (r: Report)
    ensures r.Exited? <==> !CanStart(st)
    ensures r.Crashed? <==> CanStart(st) && !doc.DirectoryJson?
    ensures r.Done? ==>
              && doc.DirectoryJson?
              && r.mappings == |TickerMapOf(doc.entries)|
              && |r.outcomes| == |TARGET_TICKERS|
              && (forall i :: 0 <= i < |TARGET_TICKERS| ==>
                    r.outcomes[i] == OutcomeOf(TickerMapOf(doc.entries), TARGET_TICKERS[i], e, upsert))
              && r.processed == SavedCount(r.outcomes) && r.skipped == SkippedCount(r.outcomes)
              && r.processed + r.skipped <= 30
  {
    if !CanStart(st) {
      return Exited;
    }
    if !doc.DirectoryJson? {
      return Crashed;
    }
    var m := BuildTickerMap(doc.entries);
    var outcomes, processed, skipped := ProcessTickers(TARGET_TICKERS, m, e, upsert);
    return Done(|m|, outcomes, processed, skipped);
  }
}
