/**
 * GET /api/filings: recent SEC EDGAR filings of three fund forms, each hit
 * normalised into a `Filing` (issuer brand, synthesised description, archive
 * or search link, "new fund" flag), merged newest first and capped.
 */
module Filings {
  import opened Wrappers
  import opened Text
  import opened Sorting
  import opened Chunking
  import opened Patterns
  import opened Quotes

  /** The forms queried when no `form` parameter is given, in query order. */
  const SEC_FORMS := ["N-1A", "485BPOS", "N-14"]
  /** At most this many hits are kept per form. */
  const PER_FORM := 30
  /** At most this many filings are returned. */
  const SHOWN := 50
  /** The look-back window, in days, when no `days` parameter is given. */
  const DEFAULT_DAYS := 30

  // ------------------------------------------------------------ issuer names

  function Brand(words: seq<string>, brand: string): Rule<string> {
    Rule([Lits(words)], brand)
  }

  /**
   * The brand table, tried in order on the lower-cased entity name (every
   * pattern is case-insensitive).  `j\.p\. morgan` escapes its dots, so it is
   * a literal.
   */
  const ISSUER_MAP := [
    Brand(["ishares"], "BlackRock iShares"),
    Brand(["vanguard"], "Vanguard"),
    Brand(["spdr", "state street"], "State Street SPDR"),
    Brand(["invesco", "powershares"], "Invesco"),
    Brand(["proshares"], "ProShares"),
    Brand(["wisdomtree"], "WisdomTree"),
    Brand(["direxion"], "Direxion"),
    Brand(["vaneck"], "VanEck"),
    Brand(["ark invest", "ark etf"], "ARK Invest"),
    Brand(["global x"], "Global X"),
    Brand(["first trust"], "First Trust"),
    Brand(["dimensional"], "Dimensional"),
    Brand(["flexshares", "northern trust"], "FlexShares"),
    Brand(["xtrackers", "dws"], "Xtrackers (DWS)"),
    Brand(["graniteshares"], "GraniteShares"),
    Brand(["amplify"], "Amplify"),
    Brand(["defiance"], "Defiance"),
    Brand(["simplify"], "Simplify"),
    Brand(["pacer"], "Pacer"),
    Brand(["goldman sachs"], "Goldman Sachs"),
    Brand(["jpmorgan", "j.p. morgan"], "JPMorgan"),
    Brand(["pimco"], "PIMCO"),
    Brand(["fidelity"], "Fidelity"),
    Brand(["schwab"], "Schwab"),
    Brand(["blackrock"], "BlackRock")
  ]

  /** The boilerplate suffix alternatives, in alternation order, lower-cased (the match ignores case). */
  const SUFFIXES := ["etf trust", "index fund", "mutual fund", "series trust", "fund trust", "investment trust", "trust"]

  /** The end of the whitespace run starting at `k`: `\s+` is greedy. */
  function SpaceRunEnd(s: string, k: nat): (e: nat)
    requires k <= |s|
    ensures k <= e <= |s|
    ensures forall i :: k <= i < e ==> IsSpace(s[i])
    ensures e == |s| || !IsSpace(s[e])
    decreases |s| - k
  {
    if k < |s| && IsSpace(s[k]) then SpaceRunEnd(s, k + 1) else k
  }

  /** The alternative `a` matches at `q`, ignoring case, and is followed by a word boundary. */
  predicate SuffixAt(s: string, q: nat, a: string) {
    q + |a| <= |s| && Lower(s[q..q + |a|]) == a && Boundary(s, q + |a|)
  }

  /** The end of the first alternative that matches at `q`, in alternation order. */
  function FirstSuffix(s: string, q: nat, alts: seq<string>): (e: Option<nat>)
    ensures e.None? <==> forall i :: 0 <= i < |alts| ==> !SuffixAt(s, q, alts[i])
    ensures e.Some? ==> exists i :: 0 <= i < |alts| && SuffixAt(s, q, alts[i]) && e.value == q + |alts[i]|
    ensures e.Some? ==> q < e.value <= |s| || (q == e.value && "" in alts)
  {
    if alts == [] then None
    else if SuffixAt(s, q, alts[0]) then Some(q + |alts[0]|)
    else
      var e := FirstSuffix(s, q, alts[1..]);
      assert forall i :: 1 <= i < |alts| ==> alts[i] == alts[1..][i - 1];
      e
  }

  /**
   * The end of a match of `\s+(alt|alt|…)\b` starting at position 0: a
   * whitespace character, the rest of its run, then an alternative.
   */
  function SuffixMatch(s: string, alts: seq<string>): (e: Option<nat>)
    ensures e.Some? ==> 0 < e.value <= |s|
  {
    if s == [] || !IsSpace(s[0]) then None
    else FirstSuffix(s, SpaceRunEnd(s, 1), alts)
  }

  /**
   * `s.replace(/\s+(…)\b/gi, '')`: scanning left to right, every match is
   * removed and the scan resumes after it; any other character is kept.
   */
  function StripSuffixes(s: string, alts: seq<string>): (r: string)
    ensures |r| <= |s|
    decreases |s|
  {
    if s == [] then []
    else if SuffixMatch(s, alts).Some? then StripSuffixes(s[SuffixMatch(s, alts).value..], alts)
    else [s[0]] + StripSuffixes(s[1..], alts)
  }

  /** `friendlyIssuer`: the brand of the first matching pattern, else the name with its suffixes trimmed. */
  function Friendly(brands: seq<Rule<string>>, entity: string): string {
    match FirstRule(brands, Lower(entity))
    case Some(brand) => brand
    case None => Trim(StripSuffixes(entity, SUFFIXES))
  }

  /** Table order decides: the brand of the first pattern that matches wins, whatever matches later. */
  lemma FriendlyFirstBrand(brands: seq<Rule<string>>, entity: string, i: nat)
    requires i < |brands| && Fires(Lower(entity), brands[i])
    requires forall j :: 0 <= j < i ==> !Fires(Lower(entity), brands[j])
    ensures Friendly(brands, entity) == brands[i].result
  {
    FirstRuleAt(brands, Lower(entity), i);
  }

  /** A name containing "ishares", in any case, is "BlackRock iShares", whatever else it mentions. */
  lemma IsharesFirst(entity: string)
    requires Contains(Lower(entity), "ishares")
    ensures Friendly(ISSUER_MAP, entity) == "BlackRock iShares"
  {
    LitMatches(Lower(entity), "ishares");
    assert Fires(Lower(entity), ISSUER_MAP[0]);
    FriendlyFirstBrand(ISSUER_MAP, entity, 0);
  }

  /** Without a brand, the result is trimmed and no longer than the name. */
  lemma UnbrandedTrimmed(entity: string)
    requires FirstRule(ISSUER_MAP, Lower(entity)).None?
    ensures var r := Friendly(ISSUER_MAP, entity);
            |r| <= |entity| && (r == [] || (!IsSpace(r[0]) && !IsSpace(r[|r| - 1])))
  {
  }

  /** A name without whitespace has no suffix to remove. */
  lemma {:induction false} StripNoSpace(s: string, alts: seq<string>)
    requires forall i :: 0 <= i < |s| ==> !IsSpace(s[i])
    ensures StripSuffixes(s, alts) == s
    decreases |s|
  {
    if s != [] {
      StripNoSpace(s[1..], alts);
      assert s == [s[0]] + s[1..];
    }
  }

  /** A whitespace character followed by "trust" in any case is one whole match of the suffix pattern. */
  lemma TrustMatch(trust: string)
    requires Lower(trust) == "trust"
    ensures SuffixMatch([' '] + trust, SUFFIXES) == Some(6)
  {
    var s := [' '] + trust;
    assert s[1..6] == trust;
    assert LowerChar(s[1]) == 't' && LowerChar(s[5]) == 't';
    assert SpaceRunEnd(s, 1) == 1;
    assert forall i :: 0 <= i < 6 ==> !SuffixAt(s, 1, SUFFIXES[i]);
    assert SuffixAt(s, 1, SUFFIXES[6]);
  }

  /** A character that does not start a whitespace run is kept. */
  lemma StripKeeps(s: string, alts: seq<string>)
    requires s != [] && !IsSpace(s[0])
    ensures StripSuffixes(s, alts) == [s[0]] + StripSuffixes(s[1..], alts)
  {
  }

  /** A text that is one whole suffix match is removed entirely. */
  lemma StripWhole(tail: string, alts: seq<string>)
    requires SuffixMatch(tail, alts) == Some(|tail|)
    ensures StripSuffixes(tail, alts) == []
  {
    assert tail[|tail|..] == [];
  }

  /** A one-word name followed by one whole suffix match comes back as the bare name. */
  lemma {:induction false} StripTrailing(name: string, tail: string, alts: seq<string>)
    requires forall i :: 0 <= i < |name| ==> !IsSpace(name[i])
    requires SuffixMatch(tail, alts) == Some(|tail|)
    ensures StripSuffixes(name + tail, alts) == name
    decreases |name|
  {
    if name == [] {
      assert name + tail == tail;
      StripWhole(tail, alts);
    } else {
      var s := name + tail;
      assert s[0] == name[0] && s[1..] == name[1..] + tail;
      StripKeeps(s, alts);
      StripTrailing(name[1..], tail, alts);
      assert name == [name[0]] + name[1..];
    }
  }

  /** " Trust" at the end of a one-word name is removed, in any letter case. */
  lemma StripTrailingTrust(name: string, trust: string)
    requires forall i :: 0 <= i < |name| ==> !IsSpace(name[i])
    requires Lower(trust) == "trust"
    ensures StripSuffixes(name + [' '] + trust, SUFFIXES) == name
  {
    TrustMatch(trust);
    StripTrailing(name, [' '] + trust, SUFFIXES);
    assert name + [' '] + trust == name + ([' '] + trust);
  }

  // ------------------------------------------------------------- descriptions

  /** `FORM_ACTION`: the sentence describing each of the three forms. */
  function FormAction(form: string): (action: Option<string>)
    ensures action.Some? <==> form in SEC_FORMS
    ensures action.Some? ==> action.value != ""
  {
    if form == "N-1A" then Some("Filed to register a new ETF series")
    else if form == "485BPOS" then Some("Filed annual registration update (effective)")
    else if form == "N-14" then Some("Filed fund merger / reorganization notice")
    else None
  }

  /** An empty description, or one that only says "registration statement" or "annual report" in any case. */
  predicate Boilerplate(raw: string) {
    raw == "" || Contains(Lower(raw), "registration statement") || Contains(Lower(raw), "annual report")
  }

  /** The description shown: a meaningful one is kept verbatim, boilerplate becomes the form's action or the form code. */
  function Describe(form: string, raw: string): (d: string)
    ensures !Boilerplate(raw) ==> d == raw
    ensures Boilerplate(raw) && form in SEC_FORMS ==> d == FormAction(form).value
    ensures Boilerplate(raw) && form !in SEC_FORMS ==> d == form
    ensures form != "" ==> d != ""
  {
    if Boilerplate(raw) then FormAction(form).GetOr(form) else raw
  }

  // ----------------------------------------------------------------- hits

  /** An entry of a hit's `display_names`. */
  datatype DisplayName = DisplayName(name: Option<string>, cik: Option<string>)

  /** The `_source` fields of one search hit that the route reads, with its `_id`. */
  datatype Hit = Hit(id: string, fileDate: Option<string>, entityName: Option<string>,
                     displayNames: Option<seq<DisplayName>>, accessionNo: Option<string>,
                     formType: Option<string>, description: Option<string>, subject: Option<string>)

  /** A normalised filing. */
  datatype Filing = Filing(id: string, formType: string, entityName: string, filedAt: string,
                           accessionNo: string, url: string, description: string, isNew: bool)

  /** `display_names?.[0]`. */
  function FirstDisplay(h: Hit): Option<DisplayName> {
    if h.displayNames.Some? && |h.displayNames.value| > 0 then Some(h.displayNames.value[0]) else None
  }

  /** `display_names?.[0]?.cik ?? ''`. */
  function Cik(h: Hit): string {
    match FirstDisplay(h)
    case Some(d) => d.cik.GetOr("")
    case None => ""
  }

  /** `entity_name || display_names?.[0]?.name || 'Unknown'`: the first non-empty of the three. */
  function RawEntity(h: Hit): (e: string)
    ensures e != ""
    ensures TruthyStr(h.entityName) ==> e == h.entityName.value
    ensures !TruthyStr(h.entityName) && FirstDisplay(h).Some? && TruthyStr(FirstDisplay(h).value.name) ==>
              e == FirstDisplay(h).value.name.value
    ensures e != "Unknown" ==> TruthyStr(h.entityName) || (FirstDisplay(h).Some? && TruthyStr(FirstDisplay(h).value.name))
  {
    var second := if FirstDisplay(h).Some? then FirstDisplay(h).value.name else None;
    OrStr(h.entityName, OrStr(second, "Unknown"))
  }

  /** `description ?? subject ?? ''`: an empty description is not replaced by the subject. */
  function RawDescription(h: Hit): (d: string)
    ensures h.description.Some? ==> d == h.description.value
    ensures h.description.None? ==> d == h.subject.GetOr("")
  {
    match h.description
    case Some(d) => d
    case None => h.subject.GetOr("")
  }

  const ARCHIVE := "https://www.sec.gov/Archives/edgar/data/"
  const SEARCH := "https://efts.sec.gov/LATEST/search-index?q=%22"

  /** The link: the filing's archive index when both the CIK and the accession number are known, else a full-text search. */
  function FilingUrl(form: string, h: Hit): (url: string)
    ensures Cik(h) != "" && h.accessionNo.Some? && RemoveChar(h.accessionNo.value, '-') != "" ==>
              && StartsWith(url, ARCHIVE + Cik(h) + "/" + RemoveChar(h.accessionNo.value, '-') + "/")
              && EndsWith(url, h.accessionNo.value + "-index.htm")
    ensures !(Cik(h) != "" && h.accessionNo.Some? && RemoveChar(h.accessionNo.value, '-') != "") ==>
              StartsWith(url, SEARCH + h.accessionNo.GetOr("")) && EndsWith(url, "%22&forms=" + form)
  {
    var cik := Cik(h);
    var accNo := if h.accessionNo.Some? then RemoveChar(h.accessionNo.value, '-') else "";
    if cik != "" && accNo != "" then
      var head := ARCHIVE + cik + "/" + accNo + "/";
      var tail := h.accessionNo.value + "-index.htm";
      var url := head + tail;
      assert url[..|head|] == head && url[|url| - |tail|..] == tail;
      url
    else
      var head := SEARCH + h.accessionNo.GetOr("");
      var tail := "%22&forms=" + form;
      var url := head + tail;
      assert url[..|head|] == head && url[|url| - |tail|..] == tail;
      url
  }

  /** An accession number whose dashes are removed is empty only when it is all dashes. */
  lemma AccessionDigits(acc: string)
    requires exists i :: 0 <= i < |acc| && acc[i] != '-'
    ensures RemoveChar(acc, '-') != ""
  {
    RemoveCharKeeps(acc, '-');
  }

  /** Every character other than `c` survives its removal. */
  lemma {:induction false} RemoveCharKeeps(s: string, c: char)
    ensures forall i :: 0 <= i < |s| && s[i] != c ==> s[i] in RemoveChar(s, c)
  {
    if s != [] {
      RemoveCharKeeps(s[1..], c);
      assert forall i :: 1 <= i < |s| ==> s[i] == s[1..][i - 1];
    }
  }

  /** The filing built from one hit of the query for `form`; `now` is the current time as an ISO string. */
  function FilingOf(form: string, now: string, h: Hit): (f: Filing)
    ensures f.isNew <==> form == "N-1A"
    ensures f.id == h.id && f.formType == h.formType.GetOr(form)
    ensures f.filedAt == h.fileDate.GetOr(now) && f.accessionNo == h.accessionNo.GetOr("")
    ensures f.entityName == Friendly(ISSUER_MAP, RawEntity(h))
    ensures f.description == Describe(form, RawDescription(h))
    ensures f.url == FilingUrl(form, h)
  {
    Filing(h.id, h.formType.GetOr(form), Friendly(ISSUER_MAP, RawEntity(h)), h.fileDate.GetOr(now),
           h.accessionNo.GetOr(""), FilingUrl(form, h), Describe(form, RawDescription(h)), form == "N-1A")
  }

  /** How the search request for one form ended; `Body` carries `json?.hits?.hits`. */
  datatype Reply = Threw | NotOk | Body(hits: Option<seq<Hit>>)

  /** `parseInt(searchParams.get('days') ?? '30', 10)`; `None` is NaN. */
  function Days(daysParam: Option<string>, parseInt: string -> Option<int>): (days: Option<int>)
    ensures daysParam.None? ==> days == Some(DEFAULT_DAYS)
    ensures daysParam.Some? ==> days == parseInt(daysParam.value)
  {
    if daysParam.None? then Some(DEFAULT_DAYS) else parseInt(daysParam.value)
  }

  /**
   * The `startdt` of every query: today moved back `days` days, as the date
   * part of `toISOString`.  `startOf(d)` is that text for a number `d`, and
   * `None` when the moved date falls outside the range a `Date` can hold; a
   * NaN `days` makes the date invalid too.  In both cases `toISOString` throws.
   */
  function StartDate(days: Option<int>, startOf: int -> Option<string>): (start: Option<string>)
    ensures days.None? ==> start.None?
    ensures days.Some? ==> start == startOf(days.value)
  {
    if days.None? then None else startOf(days.value)
  }

  /**
   * The search request for one form: building the URL throws when there is
   * no start date, otherwise `edgar(form, start)` answers the query for that
   * form and window (the end of the window is today, the same for every query).
   */
  function Query(form: string, start: Option<string>, edgar: (string, string) -> Reply): (reply: Reply)
    ensures start.None? ==> reply == Reply.Threw
    ensures start.Some? ==> reply == edgar(form, start.value)
  {
    if start.None? then Reply.Threw else edgar(form, start.value)
  }

  /** `fetchFilings`: the first 30 hits normalised, in hit order; a failure, a thrown URL among them, is an empty list. */
  function FetchFilings(form: string, start: Option<string>, edgar: (string, string) -> Reply, now: string): (fs: seq<Filing>)
    ensures |fs| <= PER_FORM
    ensures start.None? ==> fs == []
    ensures var reply := Query(form, start, edgar);
            !reply.Body? || reply.hits.None? ==> fs == []
    ensures var reply := Query(form, start, edgar);
            reply.Body? && reply.hits.Some? ==>
              |fs| == Min(|reply.hits.value|, PER_FORM) &&
              forall i :: 0 <= i < |fs| ==> fs[i] == FilingOf(form, now, reply.hits.value[i])
    ensures forall f :: f in fs ==> (f.isNew <==> form == "N-1A")
  {
    var reply := Query(form, start, edgar);
    var hits := if reply.Body? then reply.hits.GetOr([]) else [];
    var kept := SliceTo(hits, PER_FORM);
    seq(|kept|, i requires 0 <= i < |kept| => FilingOf(form, now, kept[i]))
  }

  /** `formFilter ? [formFilter] : SEC_FORMS`. */
  function FormsToFetch(formFilter: Option<string>): (forms: seq<string>)
    ensures TruthyStr(formFilter) ==> forms == [formFilter.value]
    ensures !TruthyStr(formFilter) ==> forms == SEC_FORMS
  {
    if TruthyStr(formFilter) then [formFilter.value] else SEC_FORMS
  }

  /** The filings of every form, concatenated in form order (`Promise.all(…).flat()`). */
  function AllFilings(forms: seq<string>, start: Option<string>, edgar: (string, string) -> Reply, now: string)
    : (all: seq<Filing>)
    ensures |all| <= PER_FORM * |forms|
    ensures start.None? ==> all == []
    ensures forall f :: f in all ==> exists i :: 0 <= i < |forms| && f in FetchFilings(forms[i], start, edgar, now)
  {
    if forms == [] then []
    else
      var rest := AllFilings(forms[1..], start, edgar, now);
      assert forall i :: 1 <= i < |forms| ==> forms[i] == forms[1..][i - 1];
      FetchFilings(forms[0], start, edgar, now) + rest
  }

  /** The instant a filing was filed, ordered by the abstract `time` (the `Date` parse of `filedAt`). */
  function FiledTime(time: string -> real): Filing -> real {
    (f: Filing) => time(f.filedAt)
  }

  /** What the handler reads from the clock: the start date of a window, the current instant, and date parsing. */
  datatype Clock = Clock(startOf: int -> Option<string>, now: string, time: string -> real)

  /** Every filing the handler merges: each form's fetch over the window `days` selects. */
  function Merged(formFilter: Option<string>, daysParam: Option<string>, parseInt: string -> Option<int>,
                  edgar: (string, string) -> Reply, clock: Clock): seq<Filing> {
    AllFilings(FormsToFetch(formFilter), StartDate(Days(daysParam, parseInt), clock.startOf), edgar, clock.now)
  }

  /**
   * The handler: fetch every form over the window (`edgar` answers the query
   * for each form and start date), merge, sort newest first (stably), keep
   * 50: the newest fifty, or all of them.
   */
  function Get(formFilter: Option<string>, daysParam: Option<string>, parseInt: string -> Option<int>,
               edgar: (string, string) -> Reply, clock: Clock): (data: seq<Filing>)
    ensures |data| <= SHOWN
    ensures DescendingBy(data, FiledTime(clock.time))
    ensures forall f :: f in data ==> f in Merged(formFilter, daysParam, parseInt, edgar, clock)
    ensures |data| == Min(|Merged(formFilter, daysParam, parseInt, edgar, clock)|, SHOWN)
    ensures multiset(data) <= multiset(Merged(formFilter, daysParam, parseInt, edgar, clock))
    ensures forall f, g :: f in data && g in multiset(Merged(formFilter, daysParam, parseInt, edgar, clock)) - multiset(data) ==>
              clock.time(f.filedAt) >= clock.time(g.filedAt)
  {
    var all := Merged(formFilter, daysParam, parseInt, edgar, clock);
    NewestMeaning(all, clock.time);
    Newest(all, clock.time)
  }

  /** The sort newest first and the cut to 50. */
  function Newest(all: seq<Filing>, time: string -> real): seq<Filing> {
    SliceTo(Sort(all, Desc(FiledTime(time))), SHOWN)
  }

  /**
   * Over any merged list, the cut is newest first and drawn from the list:
   * exactly 50 filings, or all of them when fewer, none left out newer.
   */
  lemma NewestMeaning(all: seq<Filing>, time: string -> real)
    ensures var data := Newest(all, time);
            && |data| <= SHOWN
            && DescendingBy(data, FiledTime(time))
            && (forall f :: f in data ==> f in all)
            && |data| == Min(|all|, SHOWN)
            && multiset(data) <= multiset(all)
            && forall f, g :: f in data && g in multiset(all) - multiset(data) ==> time(f.filedAt) >= time(g.filedAt)
  {
    var key := FiledTime(time);
    var ranked := Sort(all, Desc(key));
    SortedDesc(all, key);
    TopByKey(all, key, SHOWN);
    DescendingPrefix(ranked, key, SHOWN);
    SortMembers(all, Desc(key));
  }

  /** A `days` that is not a number gives no filings at all, whatever EDGAR holds. */
  lemma NaNDaysShowsNothing(formFilter: Option<string>, daysParam: Option<string>, parseInt: string -> Option<int>,
                            edgar: (string, string) -> Reply, clock: Clock)
    requires daysParam.Some? && parseInt(daysParam.value).None?
    ensures Get(formFilter, daysParam, parseInt, edgar, clock) == []
  {
    assert Merged(formFilter, daysParam, parseInt, edgar, clock) == [];
  }

  /** Without a `days` parameter every form is queried over the last 30 days. */
  lemma DefaultWindow(formFilter: Option<string>, parseInt: string -> Option<int>,
                      edgar: (string, string) -> Reply, clock: Clock)
    ensures Merged(formFilter, None, parseInt, edgar, clock) ==
              AllFilings(FormsToFetch(formFilter), clock.startOf(DEFAULT_DAYS), edgar, clock.now)
  {
  }

  /** Nothing is dropped when there are at most 50 filings: the answer is a reordering of all of them. */
  lemma FewFilingsAllShown(formFilter: Option<string>, daysParam: Option<string>, parseInt: string -> Option<int>,
                           edgar: (string, string) -> Reply, clock: Clock)
    requires |Merged(formFilter, daysParam, parseInt, edgar, clock)| <= SHOWN
    ensures multiset(Get(formFilter, daysParam, parseInt, edgar, clock)) == multiset(Merged(formFilter, daysParam, parseInt, edgar, clock))
  {
    var all := Merged(formFilter, daysParam, parseInt, edgar, clock);
    var ranked := Sort(all, Desc(FiledTime(clock.time)));
    assert Get(formFilter, daysParam, parseInt, edgar, clock) == Newest(all, clock.time);
    assert SliceTo(ranked, SHOWN) == ranked;
  }

  /** With a form filter, every filing is flagged new exactly when the filter is N-1A. */
  lemma {:induction false} FilteredNewness(form: string, daysParam: Option<string>, parseInt: string -> Option<int>,
                                           edgar: (string, string) -> Reply, clock: Clock)
    requires form != ""
    ensures forall f :: f in Get(Some(form), daysParam, parseInt, edgar, clock) ==> (f.isNew <==> form == "N-1A")
  {
    assert FormsToFetch(Some(form)) == [form];
  }

  /** Without a filter, only N-1A filings are flagged new, and there are at most 90 filings before the cap. */
  lemma {:induction false} UnfilteredNewness(daysParam: Option<string>, parseInt: string -> Option<int>,
                                             edgar: (string, string) -> Reply, clock: Clock)
    ensures var start := StartDate(Days(daysParam, parseInt), clock.startOf);
            forall f :: f in Get(None, daysParam, parseInt, edgar, clock) ==>
              (f.isNew <==> f in FetchFilings("N-1A", start, edgar, clock.now))
    ensures |Merged(None, daysParam, parseInt, edgar, clock)| <= 3 * PER_FORM
  {
    var forms := SEC_FORMS;
    var start := StartDate(Days(daysParam, parseInt), clock.startOf);
    forall f | f in Get(None, daysParam, parseInt, edgar, clock)
      ensures f.isNew <==> f in FetchFilings("N-1A", start, edgar, clock.now)
    {
      var i :| 0 <= i < |forms| && f in FetchFilings(forms[i], start, edgar, clock.now);
    }
  }
}
