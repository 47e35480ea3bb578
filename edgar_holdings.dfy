/**
 * The SEC EDGAR holdings fetcher: ticker to CIK through the cached
 * `company_tickers.json` dictionary, CIK to the latest NPORT-P filing through
 * the submissions history, then the filing's XML document parsed into the top
 * holdings by portfolio weight.
 *
 * Downloads are inputs.  The regular-expression extraction of `<invstOrSec>`
 * blocks and of the first `.xml` link of the index page is taken as already
 * done: a block is the raw text of its first `<name>`, `<pctVal>`, `<valUSD>`
 * and `<ticker>` elements, an index page is its first `.xml` link.
 * `parseFloat` is the parameter `parse`, `None` standing for `NaN`.
 */
module EdgarHoldings {
  import opened Wrappers
  import opened Text
  import opened Sorting
  import opened Dicts

  /** The default number of holdings returned. */
  const LIMIT := 15
  /** The form whose filings carry portfolio holdings. */
  const NPORT := "NPORT-P"

  const SUBMISSIONS := "https://data.sec.gov/submissions/CIK"
  const ARCHIVE := "https://www.sec.gov/Archives/edgar/data/"
  const SEC_HOST := "https://www.sec.gov"

  // -------------------------------------------------------- ticker to CIK

  /** One record of `company_tickers.json`. */
  datatype TickerEntry = TickerEntry(ticker: string, cikStr: string)

  /** How the `company_tickers.json` request ended. */
  datatype Directory = DirectoryThrew | DirectoryNotOk | DirectoryJson(entries: seq<TickerEntry>)

  /** The assignment one record makes: the upper-cased ticker to the CIK zero-padded to ten digits. */
  function TickerAssignment(e: TickerEntry): Option<(string, string)> {
    Some((Upper(e.ticker), PadStart(e.cikStr, 10, '0')))
  }

  /** The ticker dictionary, a later record of the same ticker overriding an earlier one. */
  function TickerMapOf(entries: seq<TickerEntry>): map<string, string> {
    Assign(entries, TickerAssignment)
  }

  /**
   * Every key is an upper-cased ticker of some record and maps to that
   * record's CIK padded to at least ten characters; every record's ticker is
   * a key.
   */
  lemma TickerMapMeaning(entries: seq<TickerEntry>)
    ensures forall k :: k in TickerMapOf(entries) ==>
              && Upper(k) == k
              && |TickerMapOf(entries)[k]| >= 10
              && exists i :: 0 <= i < |entries| && Upper(entries[i].ticker) == k &&
                   TickerMapOf(entries)[k] == PadStart(entries[i].cikStr, 10, '0')
    ensures forall i :: 0 <= i < |entries| ==> Upper(entries[i].ticker) in TickerMapOf(entries)
  {
    AssignValues(entries, TickerAssignment);
    AssignKeys(entries, TickerAssignment);
    forall k | k in TickerMapOf(entries)
      ensures Upper(k) == k && |TickerMapOf(entries)[k]| >= 10
    {
      var i :| 0 <= i < |entries| && TickerAssignment(entries[i]) == Some((k, TickerMapOf(entries)[k]));
      UpperIdempotent(entries[i].ticker);
    }
    forall i | 0 <= i < |entries|
      ensures Upper(entries[i].ticker) in TickerMapOf(entries)
    {
      assert TickerAssignment(entries[i]).value.0 == Upper(entries[i].ticker);
    }
  }

  /** The loop filling the dictionary. */
  method BuildTickerMap(entries: seq<TickerEntry>) returns (m: map<string, string>)
    ensures m == TickerMapOf(entries)
  {
    m := map[];
    for i := 0 to |entries|
      invariant m == TickerMapOf(entries[..i])
    {
      AssignSnoc(entries, TickerAssignment, i);
      m := m[Upper(entries[i].ticker) := PadStart(entries[i].cikStr, 10, '0')];
    }
    assert entries[..|entries|] == entries;
  }

  /** The dictionary `getTickerMap` answers with: the cached one, else a fresh one, else `{}` on a failed request. */
  function CachedMap(cached: Option<map<string, string>>, doc: Directory): map<string, string> {
    if cached.Some? then cached.value
    else if doc.DirectoryJson? then TickerMapOf(doc.entries)
    else map[]
  }

  /** What is cached afterwards: a successful download is kept (even an empty one), a failure is not. */
  function CacheAfter(cached: Option<map<string, string>>, doc: Directory): Option<map<string, string>> {
    if cached.Some? then cached
    else if doc.DirectoryJson? then Some(TickerMapOf(doc.entries))
    else None
  }

  // ---------------------------------------------------- CIK to NPORT-P filing

  /** The parallel arrays of `filings.recent`, each possibly missing. */
  datatype Recent = Recent(form: Option<seq<string>>, accessionNumber: Option<seq<string>>,
                           filingDate: Option<seq<string>>)

  /** How the submissions request ended; `SubmissionsJson` carries `json?.filings?.recent`. */
  datatype Submissions = SubmissionsThrew | SubmissionsNotOk | SubmissionsJson(recent: Option<Recent>)

  /** The accession and date read at the chosen index; either is `undefined` past the end of its array. */
  datatype NportInfo = NportInfo(accession: Option<string>, date: Option<string>)

  /** `(xs ?? [])[k]`. */
  function At(xs: Option<seq<string>>, k: nat): Option<string> {
    var s := xs.GetOr([]);
    if k < |s| then Some(s[k]) else None
  }

  function Forms(r: Recent): seq<string> { r.form.GetOr([]) }

  /**
   * `getLatestNportInfo` on a decoded history: the accession and date at the
   * first index whose form is exactly NPORT-P; nothing without a `recent`
   * block or without such a form.
   */
  function LatestNport(recent: Option<Recent>): (info: Option<NportInfo>)
    ensures info.Some? <==> recent.Some? && NPORT in Forms(recent.value)
    ensures info.Some? ==>
              var forms := Forms(recent.value);
              exists k :: 0 <= k < |forms| && forms[k] == NPORT && NPORT !in forms[..k] &&
                info.value == NportInfo(At(recent.value.accessionNumber, k), At(recent.value.filingDate, k))
  {
    if recent.None? then None
    else
      var forms := Forms(recent.value);
      var k := IndexOf(forms, NPORT);
      if k < |forms| then Some(NportInfo(At(recent.value.accessionNumber, k), At(recent.value.filingDate, k)))
      else None
  }

  /** The index loop with its early return. */
  method GetLatestNportInfo(recent: Option<Recent>) returns (info: Option<NportInfo>)
    ensures info == LatestNport(recent)
  {
    if recent.None? {
      return None;
    }
    var forms := Forms(recent.value);
    for i := 0 to |forms|
      invariant NPORT !in forms[..i]
    {
      if forms[i] == NPORT {
        assert forms[..i + 1] == forms[..i] + [NPORT];
        return Some(NportInfo(At(recent.value.accessionNumber, i), At(recent.value.filingDate, i)));
      }
      assert forms[..i + 1] == forms[..i] + [forms[i]];
    }
    assert forms[..|forms|] == forms;
    return None;
  }

  /** The library's reading of the submissions request: a failure of any kind is no filing. */
  function NportInfoOf(reply: Submissions): Option<NportInfo> {
    if reply.SubmissionsJson? then LatestNport(reply.recent) else None
  }

  // ------------------------------------------------------------ the parser

  /** The raw text of the first `<name>`, `<pctVal>`, `<valUSD>` and `<ticker>` of one `<invstOrSec>` block. */
  datatype Block = Block(name: Option<string>, pctVal: Option<string>, valUsd: Option<string>, ticker: Option<string>)

  /** One holding: an empty ticker is absent, the weight is a percentage of the portfolio. */
  datatype Holding = Holding(name: string, ticker: Option<string>, weight: real, value: real)

  function WeightOf(h: Holding): real { h.weight }

  /** `/<tag>(.*?)<\/tag>/i.exec(block)?.[1]?.trim() ?? ''`. */
  function Field(raw: Option<string>): string {
    Trim(raw.GetOr(""))
  }

  /**
   * The holding a block yields: none when its trimmed name or weight text is
   * empty or the weight is `NaN` or not positive; an unparseable value is 0.
   */
  function HoldingOf(b: Block, parse: string -> Option<real>): (h: Option<Holding>)
    ensures h.Some? ==> h.value.name != "" && h.value.weight > 0.0
  {
    var name := Field(b.name);
    var pctStr := Field(b.pctVal);
    var valStr := Field(b.valUsd);
    var ticker := Field(b.ticker);
    if name == "" || pctStr == "" then None
    else
      var weight := parse(pctStr);
      if weight.None? || weight.value <= 0.0 then None
      else Some(Holding(name, if ticker == "" then None else Some(ticker), weight.value, parse(valStr).GetOr(0.0)))
  }

  /**
   * A block is kept exactly when its name and weight text are non-empty and
   * the weight parses to a positive number; the holding carries the trimmed
   * texts, the parsed weight, the parsed value or 0, and no ticker for an
   * empty one.
   */
  lemma HoldingOfMeaning(b: Block, parse: string -> Option<real>)
    ensures HoldingOf(b, parse).Some? <==>
              Field(b.name) != "" && Field(b.pctVal) != "" &&
              parse(Field(b.pctVal)).Some? && parse(Field(b.pctVal)).value > 0.0
    ensures HoldingOf(b, parse).Some? ==>
              var h := HoldingOf(b, parse).value;
              && h.name == Field(b.name)
              && h.weight == parse(Field(b.pctVal)).value
              && h.value == parse(Field(b.valUsd)).GetOr(0.0)
              && (h.ticker.None? <==> Field(b.ticker) == "")
              && (h.ticker.Some? ==> h.ticker.value == Field(b.ticker))
  {
  }

  /** The per-block step as a value, for `Collect`. */
  function BlockHolding(parse: string -> Option<real>): Block -> Option<Holding> {
    (b: Block) => HoldingOf(b, parse)
  }

  /** The holdings of every block that yields one, in document order. */
  function Valid(blocks: seq<Block>, parse: string -> Option<real>): (hs: seq<Holding>)
    ensures forall h :: h in hs <==> exists i :: 0 <= i < |blocks| && HoldingOf(blocks[i], parse) == Some(h)
    ensures forall h :: h in hs ==> h.name != "" && h.weight > 0.0
  {
    CollectMeaning(blocks, BlockHolding(parse));
    Collect(blocks, BlockHolding(parse))
  }

  /**
   * `parseNportHoldings`, specified: the first `3 * limit` valid holdings in
   * document order, sorted stably by descending weight, cut to `limit`.
   */
  function TopHoldings(blocks: seq<Block>, parse: string -> Option<real>, limit: nat): (hs: seq<Holding>)
    ensures |hs| <= limit
    ensures |hs| == Min(|Valid(blocks, parse)|, limit)
    ensures DescendingBy(hs, WeightOf)
    ensures forall h :: h in hs ==> h in Valid(blocks, parse) && h.name != "" && h.weight > 0.0
    ensures forall h :: h in hs ==> h in SliceTo(Valid(blocks, parse), limit * 3)
  {
    var collected := SliceTo(Valid(blocks, parse), limit * 3);
    var ranked := Sort(collected, Desc(WeightOf));
    SortedDesc(collected, WeightOf);
    DescendingPrefix(ranked, WeightOf, limit);
    assert forall h :: h in ranked ==> h in multiset(collected);
    SliceTo(ranked, limit)
  }

  /** No collected holding left out weighs more than one that was kept. */
  lemma TopAreHeaviest(blocks: seq<Block>, parse: string -> Option<real>, limit: nat)
    ensures var top := TopHoldings(blocks, parse, limit);
            forall h, g :: h in top && g in SliceTo(Valid(blocks, parse), limit * 3) && g !in top ==> h.weight >= g.weight
  {
    var collected := SliceTo(Valid(blocks, parse), limit * 3);
    var ranked := Sort(collected, Desc(WeightOf));
    var top := TopHoldings(blocks, parse, limit);
    SortedDesc(collected, WeightOf);
    forall h, g | h in top && g in collected && g !in top
      ensures h.weight >= g.weight
    {
      assert g in multiset(ranked);
      var j :| 0 <= j < |ranked| && ranked[j] == g;
      var i :| 0 <= i < |top| && top[i] == h;
      assert top == ranked[..|top|];
    }
  }

  /** The `while` loop over the blocks, the stable descending sort and the final slice. */
  method ParseNportHoldings(blocks: seq<Block>, parse: string -> Option<real>, limit: nat) returns (hs: seq<Holding>)
    ensures hs == TopHoldings(blocks, parse, limit)
    ensures |hs| <= limit && DescendingBy(hs, WeightOf)
    ensures forall h :: h in hs ==> h in Valid(blocks, parse)
  {
    var holdings: seq<Holding> := [];
    var i := 0;
    while i < |blocks| && |holdings| < limit * 3
      invariant 0 <= i <= |blocks| && |holdings| <= limit * 3
      invariant holdings == Collect(blocks[..i], BlockHolding(parse))
      decreases |blocks| - i
    {
      var b := blocks[i];
      CollectSnoc(blocks, BlockHolding(parse), i);
      i := i + 1;
      var name := Field(b.name);
      var pctStr := Field(b.pctVal);
      var valStr := Field(b.valUsd);
      var ticker := Field(b.ticker);
      if name == "" || pctStr == "" {
        continue;
      }
      var weight := parse(pctStr);
      var value := parse(valStr).GetOr(0.0);
      if weight.None? || weight.value <= 0.0 {
        continue;
      }
      holdings := holdings + [Holding(name, if ticker == "" then None else Some(ticker), weight.value, value)];
    }
    var all := Collect(blocks, BlockHolding(parse));
    assert Valid(blocks, parse) == all;
    if i == |blocks| {
      assert blocks[..i] == blocks;
    } else {
      CollectPrefix(blocks, BlockHolding(parse), i);
      assert holdings == all[..limit * 3];
    }
    assert holdings == SliceTo(all, limit * 3);
    var ranked := Sort(holdings, Desc(WeightOf));
    hs := SliceTo(ranked, limit);
  }

  // ------------------------------------------------------- archive locations

  /** `cik.replace(/^0+/, '')`. */
  function CikPath(cik: string): string { StripLeadingZeros(cik) }

  /** `accession.replace(/-/g, '')`. */
  function AccessionPath(accession: string): string { RemoveChar(accession, '-') }

  /** The filing's archive directory. */
  function DirUrl(cik: string, accession: string): (url: string)
    ensures StartsWith(url, ARCHIVE + CikPath(cik) + "/")
    ensures EndsWith(url, AccessionPath(accession)) && '-' !in AccessionPath(accession)
  {
    var head := ARCHIVE + CikPath(cik) + "/";
    var url := head + AccessionPath(accession);
    assert url[..|head|] == head && url[|url| - |AccessionPath(accession)|..] == AccessionPath(accession);
    url
  }

  function IndexUrl(dir: string, accession: string): string {
    dir + "/" + accession + "-index.htm"
  }

  /** Zero padding adds nothing the path keeps: the path of a padded CIK is the path of the CIK. */
  lemma {:induction false} PaddedCikPath(cik: string, width: nat)
    ensures CikPath(PadStart(cik, width, '0')) == CikPath(cik)
  {
    if |cik| < width {
      ZerosStripped(Repeat('0', width - |cik|), cik);
    }
  }

  lemma {:induction false} ZerosStripped(zeros: string, s: string)
    requires forall i :: 0 <= i < |zeros| ==> zeros[i] == '0'
    ensures StripLeadingZeros(zeros + s) == StripLeadingZeros(s)
    decreases |zeros|
  {
    if zeros == [] {
      assert zeros + s == s;
    } else {
      var padded := zeros + s;
      assert padded[0] == '0';
      assert padded[1..] == zeros[1..] + s;
      ZerosStripped(zeros[1..], s);
    }
  }

  /** How the index-page request ended; `IndexHtml` carries the first `href="….xml"` link, if any. */
  datatype IndexPage = IndexThrew | IndexNotOk | IndexHtml(xmlHref: Option<string>)

  /** The document the index page links to: absolute as given, otherwise on the SEC host; `''` without one. */
  function LinkedXml(page: IndexPage): (url: string)
    ensures page.IndexHtml? && page.xmlHref.Some? && StartsWith(page.xmlHref.value, "http") ==> url == page.xmlHref.value
    ensures page.IndexHtml? && page.xmlHref.Some? && !StartsWith(page.xmlHref.value, "http") ==>
              url == SEC_HOST + page.xmlHref.value && url != ""
    ensures !(page.IndexHtml? && page.xmlHref.Some?) ==> url == ""
  {
    if page.IndexHtml? && page.xmlHref.Some? then
      var href := page.xmlHref.value;
      if StartsWith(href, "http") then href else SEC_HOST + href
    else ""
  }

  /** The XML document fetched: the linked one, or `primary_doc.xml` in the directory when there is none. */
  function XmlUrl(dir: string, page: IndexPage): (url: string)
    ensures url != ""
    ensures LinkedXml(page) != "" ==> url == LinkedXml(page)
    ensures LinkedXml(page) == "" ==> url == dir + "/primary_doc.xml"
  {
    var linked := LinkedXml(page);
    if linked != "" then linked else dir + "/primary_doc.xml"
  }

  /** A failed or link-less index page falls back to `primary_doc.xml`. */
  lemma XmlFallback(dir: string, page: IndexPage)
    requires !page.IndexHtml? || page.xmlHref.None?
    ensures XmlUrl(dir, page) == dir + "/primary_doc.xml"
  {
  }

  // ---------------------------------------------------------- the fetcher

  /** How the XML document request ended; `XmlText` carries its blocks in document order. */
  datatype XmlReply = XmlThrew | XmlNotOk | XmlText(blocks: seq<Block>)

  datatype Source = Nport | Unavailable

  datatype HoldingsResult = HoldingsResult(holdings: seq<Holding>, asOfDate: Option<string>, source: Source)

  /** `{ holdings: [], asOfDate: '', source: 'unavailable' }`. */
  const EMPTY := HoldingsResult([], Some(""), Unavailable)

  /** The outcome of `fetchHoldings`: a result, or a rejection when the chosen filing has no accession number. */
  datatype Fetched = Fetched(result: HoldingsResult) | Raised

  /**
   * `fetchHoldings` for a ticker dictionary `m`: `submissions`, `index` and
   * `xml` answer the three requests by URL.
   */
  function HoldingsFrom(m: map<string, string>, ticker: string, submissions: string -> Submissions,
                        index: string -> IndexPage, xml: string -> XmlReply, parse: string -> Option<real>): (r: Fetched)
    ensures r.Fetched? && r.result.source == Unavailable ==> r.result == EMPTY
    ensures r.Fetched? && r.result.source == Nport ==>
              && Upper(ticker) in m
              && 0 < |r.result.holdings| <= LIMIT
              && DescendingBy(r.result.holdings, WeightOf)
              && NportInfoOf(submissions(SUBMISSIONS + m[Upper(ticker)] + ".json")).Some?
              && r.result.asOfDate == NportInfoOf(submissions(SUBMISSIONS + m[Upper(ticker)] + ".json")).value.date
    ensures Upper(ticker) !in m || m[Upper(ticker)] == "" ==> r == Fetched(EMPTY)
  {
    var key := Upper(ticker);
    if key !in m || m[key] == "" then Fetched(EMPTY)
    else
      var cik := m[key];
      var info := NportInfoOf(submissions(SUBMISSIONS + cik + ".json"));
      if info.None? then Fetched(EMPTY)
      else if info.value.accession.None? then Raised
      else
        var accession := info.value.accession.value;
        var dir := DirUrl(cik, accession);
        var page := index(IndexUrl(dir, accession));
        if page.IndexThrew? then Fetched(EMPTY)
        else
          match xml(XmlUrl(dir, page))
          case XmlText(blocks) =>
            var hs := TopHoldings(blocks, parse, LIMIT);
            if hs == [] then Fetched(EMPTY) else Fetched(HoldingsResult(hs, info.value.date, Nport))
          case _ => Fetched(EMPTY)
  }

  /**
   * Once the ticker has a CIK, the submissions answer decides the early
   * exits: no NPORT-P filing gives the empty result, one without an
   * accession number rejects, and an index request that throws gives the
   * empty result.
   */
  lemma HoldingsFromFiling(m: map<string, string>, ticker: string, submissions: string -> Submissions,
                           index: string -> IndexPage, xml: string -> XmlReply, parse: string -> Option<real>,
                           cik: string, info: Option<NportInfo>)
    requires Upper(ticker) in m && m[Upper(ticker)] == cik && cik != ""
    requires info == NportInfoOf(submissions(SUBMISSIONS + cik + ".json"))
    ensures info.None? ==> HoldingsFrom(m, ticker, submissions, index, xml, parse) == Fetched(EMPTY)
    ensures info.Some? && info.value.accession.None? ==> HoldingsFrom(m, ticker, submissions, index, xml, parse) == Raised
    ensures info.Some? && info.value.accession.Some? &&
            index(IndexUrl(DirUrl(cik, info.value.accession.value), info.value.accession.value)).IndexThrew? ==>
              HoldingsFrom(m, ticker, submissions, index, xml, parse) == Fetched(EMPTY)
  {
  }

  /**
   * Past the index page, the result is the document's top holdings as an
   * N-PORT result dated with the filing, or the empty result when the
   * document yields no holding or could not be downloaded.
   */
  lemma HoldingsFromDocument(m: map<string, string>, ticker: string, submissions: string -> Submissions,
                             index: string -> IndexPage, xml: string -> XmlReply, parse: string -> Option<real>,
                             cik: string, info: NportInfo, accession: string, page: IndexPage, reply: XmlReply)
    requires Upper(ticker) in m && m[Upper(ticker)] == cik && cik != ""
    requires NportInfoOf(submissions(SUBMISSIONS + cik + ".json")) == Some(info) && info.accession == Some(accession)
    requires page == index(IndexUrl(DirUrl(cik, accession), accession)) && !page.IndexThrew?
    requires reply == xml(XmlUrl(DirUrl(cik, accession), page))
    ensures reply.XmlText? && TopHoldings(reply.blocks, parse, LIMIT) != [] ==>
              HoldingsFrom(m, ticker, submissions, index, xml, parse) ==
              Fetched(HoldingsResult(TopHoldings(reply.blocks, parse, LIMIT), info.date, Nport))
    ensures reply.XmlText? && TopHoldings(reply.blocks, parse, LIMIT) == [] ==>
              HoldingsFrom(m, ticker, submissions, index, xml, parse) == Fetched(EMPTY)
    ensures !reply.XmlText? ==> HoldingsFrom(m, ticker, submissions, index, xml, parse) == Fetched(EMPTY)
  {
  }

  /** The module-level `_tickerMap`: filled by the first successful download and reused from then on. */
  class TickerCache {
    var cached: Option<map<string, string>>

    constructor ()
      ensures cached.None?
    {
      cached := None;
    }

    /** `getTickerMap`; `doc` is what the download would answer, used only when nothing is cached. */
    method GetTickerMap(doc: Directory) returns (m: map<string, string>)
      modifies this
      ensures m == CachedMap(old(cached), doc)
      ensures cached == CacheAfter(old(cached), doc)
    {
      if cached.Some? {
        return cached.value;
      }
      if !doc.DirectoryJson? {
        return map[];
      }
      m := BuildTickerMap(doc.entries);
      cached := Some(m);
    }

    /** `getCik`: the ticker is upper-cased before the lookup. */
    method GetCik(ticker: string, doc: Directory) returns (cik: Option<string>)
      modifies this
      ensures var m := CachedMap(old(cached), doc);
              cik == if Upper(ticker) in m then Some(m[Upper(ticker)]) else None
      ensures cached == CacheAfter(old(cached), doc)
    {
      var m := GetTickerMap(doc);
      cik := if Upper(ticker) in m then Some(m[Upper(ticker)]) else None;
    }

    /** `fetchHoldings`. */
    method FetchHoldings(ticker: string, doc: Directory, submissions: string -> Submissions,
                         index: string -> IndexPage, xml: string -> XmlReply, parse: string -> Option<real>)
      returns (r: Fetched)
      modifies this
      ensures r == HoldingsFrom(CachedMap(old(cached), doc), ticker, submissions, index, xml, parse)
      ensures cached == CacheAfter(old(cached), doc)
    {
      var cik := GetCik(ticker, doc);
      if cik.None? || cik.value == "" {
        return Fetched(EMPTY);
      }
      var reply := submissions(SUBMISSIONS + cik.value + ".json");
      var info: Option<NportInfo> := None;
      if reply.SubmissionsJson? {
        info := GetLatestNportInfo(reply.recent);
      }
      if info.None? {
        return Fetched(EMPTY);
      }
      if info.value.accession.None? {
        return Raised;
      }
      var accession := info.value.accession.value;
      var dir := DirUrl(cik.value, accession);
      var page := index(IndexUrl(dir, accession));
      if page.IndexThrew? {
        return Fetched(EMPTY);
      }
      var answer := xml(XmlUrl(dir, page));
      if !answer.XmlText? {
        return Fetched(EMPTY);
      }
      var holdings := ParseNportHoldings(answer.blocks, parse, LIMIT);
      if |holdings| == 0 {
        return Fetched(EMPTY);
      }
      return Fetched(HoldingsResult(holdings, info.value.date, Nport));
    }
  }
}
