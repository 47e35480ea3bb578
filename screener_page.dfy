/**
 * The screener page: the filter form, the sort column and direction and the
 * page number, each change of which sends a new request to the screener
 * endpoint; the answer fills the table and the pager.  The page's state is
 * a `Page` object whose methods are the handlers.
 */
module ScreenerPage {
  import opened Wrappers
  import opened Text
  import ScreenerApi

  const LIMIT := 25

  /** `String(LIMIT)`. */
  const LIMIT_TEXT := "25"

  const CATEGORIES := ["All", "US Equity", "Fixed Income", "Sector", "Commodities", "International",
                       "Digital Assets", "Thematic", "Leveraged"]

  /** The sort options and column headers. */
  const SORT_OPTIONS := ["aum", "expense_ratio", "ytd_return", "one_year_return", "three_year_return", "ticker"]

  datatype SortDir = Ascending | Descending

  function DirName(d: SortDir): string {
    if d == Ascending then "asc" else "desc"
  }

  /** The filter form, as the text the fields hold. */
  datatype Filters = Filters(category: string, issuer: string, aumMin: string, aumMax: string,
                             expenseMax: string, ytdMin: string, oneYearMin: string)

  const DEFAULT_FILTERS := Filters("All", "", "", "", "", "", "")

  datatype FilterKey = CategoryField | IssuerField | AumMinField | AumMaxField
                     | ExpenseMaxField | YtdMinField | OneYearMinField

  function FieldOf(f: Filters, key: FilterKey): string {
    match key
    case CategoryField => f.category
    case IssuerField => f.issuer
    case AumMinField => f.aumMin
    case AumMaxField => f.aumMax
    case ExpenseMaxField => f.expenseMax
    case YtdMinField => f.ytdMin
    case OneYearMinField => f.oneYearMin
  }

  /** `{ ...f, [key]: val }`: one field replaced. */
  function With(f: Filters, key: FilterKey, val: string): (g: Filters)
    ensures FieldOf(g, key) == val
    ensures forall k :: k != key ==> FieldOf(g, k) == FieldOf(f, k)
  {
    match key
    case CategoryField => f.(category := val)
    case IssuerField => f.(issuer := val)
    case AumMinField => f.(aumMin := val)
    case AumMaxField => f.(aumMax := val)
    case ExpenseMaxField => f.(expenseMax := val)
    case YtdMinField => f.(ytdMin := val)
    case OneYearMinField => f.(oneYearMin := val)
  }

  /** Putting a field's old text back undoes the edit. */
  lemma WithUndo(f: Filters, key: FilterKey, val: string)
    ensures With(With(f, key, val), key, FieldOf(f, key)) == f
  {
  }

  /** `hasFilters`: a category other than `All`, or any non-empty field. */
  predicate HasFilters(f: Filters) {
    f.category != "All" || f.issuer != "" || f.aumMin != "" || f.aumMax != ""
    || f.expenseMax != "" || f.ytdMin != "" || f.oneYearMin != ""
  }

  /** The reset button shows exactly when the form differs from the defaults. */
  lemma HasFiltersIff(f: Filters)
    ensures HasFilters(f) <==> f != DEFAULT_FILTERS
  {
  }

  /** `handleSort`: the current column flips the direction, a new column starts descending. */
  function SortAfter(sort: string, dir: SortDir, col: string): (string, SortDir) {
    if sort == col then (sort, if dir == Ascending then Descending else Ascending)
    else (col, Descending)
  }

  /** Clicking the same column twice restores the direction. */
  lemma SortTwice(sort: string, dir: SortDir, col: string)
    ensures var (s1, d1) := SortAfter(sort, dir, col);
            SortAfter(s1, d1, col) == if sort == col then (sort, dir) else (col, Ascending)
  {
  }

  // ------------------------------------------------------------ request

  /** The query-string parameters the page may send. */
  datatype ParamName = SortParam | SortDirParam | PageParam | LimitParam | CategoryParam | IssuerParam
                     | AumMinParam | AumMaxParam | ExpenseMaxParam | YtdMinParam | OneYearMinParam

  /** A parameter's name in the query string. */
  function WireName(n: ParamName): string {
    match n
    case SortParam => "sort"
    case SortDirParam => "sort_dir"
    case PageParam => "page"
    case LimitParam => "limit"
    case CategoryParam => "category"
    case IssuerParam => "issuer"
    case AumMinParam => "aum_min"
    case AumMaxParam => "aum_max"
    case ExpenseMaxParam => "expense_max"
    case YtdMinParam => "ytd_min"
    case OneYearMinParam => "one_year_min"
  }

  /** Distinct parameters have distinct names, so a map keyed by parameter is the query string. */
  lemma WireNamesDistinct(m: ParamName, n: ParamName)
    ensures WireName(m) == WireName(n) ==> m == n
  {
  }

  /** `if (cond) params.set(name, value)`. */
  function SetIf(ps: map<ParamName, string>, cond: bool, name: ParamName, value: string): map<ParamName, string> {
    if cond then ps[name := value] else ps
  }

  /** The request parameters, specified: the four fixed ones, then each filter that is set. */
  function ParamsFor(f: Filters, sort: string, dir: SortDir, page: nat): map<ParamName, string> {
    var base := map[SortParam := sort, SortDirParam := DirName(dir), PageParam := NatToString(page), LimitParam := LIMIT_TEXT];
    var p1 := SetIf(base, f.category != "" && f.category != "All", CategoryParam, f.category);
    var p2 := SetIf(p1, f.issuer != "", IssuerParam, f.issuer);
    var p3 := SetIf(p2, f.aumMin != "", AumMinParam, f.aumMin);
    var p4 := SetIf(p3, f.aumMax != "", AumMaxParam, f.aumMax);
    var p5 := SetIf(p4, f.expenseMax != "", ExpenseMaxParam, f.expenseMax);
    var p6 := SetIf(p5, f.ytdMin != "", YtdMinParam, f.ytdMin);
    SetIf(p6, f.oneYearMin != "", OneYearMinParam, f.oneYearMin)
  }

  /** `searchParams.get(name)`. */
  function Lookup(ps: map<ParamName, string>, name: ParamName): Option<string> {
    if name in ps then Some(ps[name]) else None
  }

  /** The `new URLSearchParams({...})` and `params.set` sequence. */
  method BuildParams(f: Filters, sort: string, dir: SortDir, page: nat) returns (ps: map<ParamName, string>)
    ensures ps == ParamsFor(f, sort, dir, page)
  {
    ps := map[SortParam := sort, SortDirParam := DirName(dir), PageParam := NatToString(page), LimitParam := LIMIT_TEXT];
    ps := SetWhen(ps, f.category != "" && f.category != "All", CategoryParam, f.category);
    ps := SetWhen(ps, f.issuer != "", IssuerParam, f.issuer);
    ps := SetWhen(ps, f.aumMin != "", AumMinParam, f.aumMin);
    ps := SetWhen(ps, f.aumMax != "", AumMaxParam, f.aumMax);
    ps := SetWhen(ps, f.expenseMax != "", ExpenseMaxParam, f.expenseMax);
    ps := SetWhen(ps, f.ytdMin != "", YtdMinParam, f.ytdMin);
    ps := SetWhen(ps, f.oneYearMin != "", OneYearMinParam, f.oneYearMin);
  }

  /** One `if (…) params.set(…)` step: the parameter is set exactly when its condition holds. */
  method SetWhen(ps: map<ParamName, string>, cond: bool, name: ParamName, value: string) returns (r: map<ParamName, string>)
    ensures r == SetIf(ps, cond, name, value)
  {
    r := ps;
    if cond {
      r := r[name := value];
    }
  }

  function AsOption(s: string): Option<string> {
    if s == "" then None else Some(s)
  }

  /** Looking a name up after a conditional `set`. */
  lemma SetIfLookup(ps: map<ParamName, string>, cond: bool, name: ParamName, value: string, key: ParamName)
    ensures Lookup(SetIf(ps, cond, name, value), key) == if cond && key == name then Some(value) else Lookup(ps, key)
  {
  }

  /**
   * What the request should carry for each parameter: sort, direction, page
   * and a limit of 25 always; the category unless it is empty or `All`;
   * every other filter exactly when its field is non-empty.
   */
  function Carried(f: Filters, sort: string, dir: SortDir, page: nat, n: ParamName): Option<string> {
    match n
    case SortParam => Some(sort)
    case SortDirParam => Some(DirName(dir))
    case PageParam => Some(NatToString(page))
    case LimitParam => Some("25")
    case CategoryParam => if f.category == "All" then None else AsOption(f.category)
    case IssuerParam => AsOption(f.issuer)
    case AumMinParam => AsOption(f.aumMin)
    case AumMaxParam => AsOption(f.aumMax)
    case ExpenseMaxParam => AsOption(f.expenseMax)
    case YtdMinParam => AsOption(f.ytdMin)
    case OneYearMinParam => AsOption(f.oneYearMin)
  }

  /** The four fixed parameters are always sent, with their values. */
  lemma {:induction false} FixedCarried(f: Filters, sort: string, dir: SortDir, page: nat, n: ParamName)
    requires n == SortParam || n == SortDirParam || n == PageParam || n == LimitParam
    ensures Lookup(ParamsFor(f, sort, dir, page), n) == Carried(f, sort, dir, page, n)
  {
    var base := map[SortParam := sort, SortDirParam := DirName(dir), PageParam := NatToString(page), LimitParam := LIMIT_TEXT];
    var p1 := SetIf(base, f.category != "" && f.category != "All", CategoryParam, f.category);
    var p2 := SetIf(p1, f.issuer != "", IssuerParam, f.issuer);
    var p3 := SetIf(p2, f.aumMin != "", AumMinParam, f.aumMin);
    var p4 := SetIf(p3, f.aumMax != "", AumMaxParam, f.aumMax);
    var p5 := SetIf(p4, f.expenseMax != "", ExpenseMaxParam, f.expenseMax);
    var p6 := SetIf(p5, f.ytdMin != "", YtdMinParam, f.ytdMin);
    SetIfLookup(base, f.category != "" && f.category != "All", CategoryParam, f.category, n);
    SetIfLookup(p1, f.issuer != "", IssuerParam, f.issuer, n);
    SetIfLookup(p2, f.aumMin != "", AumMinParam, f.aumMin, n);
    SetIfLookup(p3, f.aumMax != "", AumMaxParam, f.aumMax, n);
    SetIfLookup(p4, f.expenseMax != "", ExpenseMaxParam, f.expenseMax, n);
    SetIfLookup(p5, f.ytdMin != "", YtdMinParam, f.ytdMin, n);
    SetIfLookup(p6, f.oneYearMin != "", OneYearMinParam, f.oneYearMin, n);
  }

  /** The category, issuer and AUM filters are sent exactly when set. */
  lemma {:induction false} ProfileFiltersCarried(f: Filters, sort: string, dir: SortDir, page: nat, n: ParamName)
    requires n == CategoryParam || n == IssuerParam || n == AumMinParam || n == AumMaxParam
    ensures Lookup(ParamsFor(f, sort, dir, page), n) == Carried(f, sort, dir, page, n)
  {
    var base := map[SortParam := sort, SortDirParam := DirName(dir), PageParam := NatToString(page), LimitParam := LIMIT_TEXT];
    var p1 := SetIf(base, f.category != "" && f.category != "All", CategoryParam, f.category);
    var p2 := SetIf(p1, f.issuer != "", IssuerParam, f.issuer);
    var p3 := SetIf(p2, f.aumMin != "", AumMinParam, f.aumMin);
    var p4 := SetIf(p3, f.aumMax != "", AumMaxParam, f.aumMax);
    var p5 := SetIf(p4, f.expenseMax != "", ExpenseMaxParam, f.expenseMax);
    var p6 := SetIf(p5, f.ytdMin != "", YtdMinParam, f.ytdMin);
    SetIfLookup(base, f.category != "" && f.category != "All", CategoryParam, f.category, n);
    SetIfLookup(p1, f.issuer != "", IssuerParam, f.issuer, n);
    SetIfLookup(p2, f.aumMin != "", AumMinParam, f.aumMin, n);
    SetIfLookup(p3, f.aumMax != "", AumMaxParam, f.aumMax, n);
    SetIfLookup(p4, f.expenseMax != "", ExpenseMaxParam, f.expenseMax, n);
    SetIfLookup(p5, f.ytdMin != "", YtdMinParam, f.ytdMin, n);
    SetIfLookup(p6, f.oneYearMin != "", OneYearMinParam, f.oneYearMin, n);
  }

  /** The expense and return filters are sent exactly when set. */
  lemma {:induction false} CostReturnFiltersCarried(f: Filters, sort: string, dir: SortDir, page: nat, n: ParamName)
    requires n == ExpenseMaxParam || n == YtdMinParam || n == OneYearMinParam
    ensures Lookup(ParamsFor(f, sort, dir, page), n) == Carried(f, sort, dir, page, n)
  {
    var base := map[SortParam := sort, SortDirParam := DirName(dir), PageParam := NatToString(page), LimitParam := LIMIT_TEXT];
    var p1 := SetIf(base, f.category != "" && f.category != "All", CategoryParam, f.category);
    var p2 := SetIf(p1, f.issuer != "", IssuerParam, f.issuer);
    var p3 := SetIf(p2, f.aumMin != "", AumMinParam, f.aumMin);
    var p4 := SetIf(p3, f.aumMax != "", AumMaxParam, f.aumMax);
    var p5 := SetIf(p4, f.expenseMax != "", ExpenseMaxParam, f.expenseMax);
    var p6 := SetIf(p5, f.ytdMin != "", YtdMinParam, f.ytdMin);
    SetIfLookup(base, f.category != "" && f.category != "All", CategoryParam, f.category, n);
    SetIfLookup(p1, f.issuer != "", IssuerParam, f.issuer, n);
    SetIfLookup(p2, f.aumMin != "", AumMinParam, f.aumMin, n);
    SetIfLookup(p3, f.aumMax != "", AumMaxParam, f.aumMax, n);
    SetIfLookup(p4, f.expenseMax != "", ExpenseMaxParam, f.expenseMax, n);
    SetIfLookup(p5, f.ytdMin != "", YtdMinParam, f.ytdMin, n);
    SetIfLookup(p6, f.oneYearMin != "", OneYearMinParam, f.oneYearMin, n);
  }

  /** The request carries exactly what `Carried` says, parameter by parameter. */
  lemma RequestCarries(f: Filters, sort: string, dir: SortDir, page: nat, n: ParamName)
    ensures Lookup(ParamsFor(f, sort, dir, page), n) == Carried(f, sort, dir, page, n)
  {
    if n == SortParam || n == SortDirParam || n == PageParam || n == LimitParam {
      FixedCarried(f, sort, dir, page, n);
    } else if n == CategoryParam || n == IssuerParam || n == AumMinParam || n == AumMaxParam {
      ProfileFiltersCarried(f, sort, dir, page, n);
    } else {
      CostReturnFiltersCarried(f, sort, dir, page, n);
    }
  }

  /** The limit is sent as its numeral. */
  lemma LimitText()
    ensures NatToString(LIMIT) == LIMIT_TEXT
  {
    assert NatToString(2) == "2";
  }

  /** The request as the endpoint reads it back. */
  function SentParams(f: Filters, sort: string, dir: SortDir, page: nat): ScreenerApi.Params {
    var ps := ParamsFor(f, sort, dir, page);
    ScreenerApi.Params(Lookup(ps, CategoryParam), Lookup(ps, IssuerParam), Lookup(ps, AumMinParam), Lookup(ps, AumMaxParam),
                       Lookup(ps, ExpenseMaxParam), Lookup(ps, YtdMinParam), Lookup(ps, OneYearMinParam),
                       Lookup(ps, SortParam), Lookup(ps, SortDirParam), Lookup(ps, PageParam), Lookup(ps, LimitParam))
  }

  /**
   * The endpoint sees what the page asked for: the page's own sort column
   * (every option is on the endpoint's list), its direction, no category
   * filter for `All`, and with a `parseInt` that reads numerals, the page
   * number as sent and 25 rows.
   */
  lemma EndpointReadsRequest(f: Filters, sort: string, dir: SortDir, page: nat,
                             parseFloat: string -> Option<real>, parseInt: string -> Option<int>)
    requires sort in SORT_OPTIONS
    requires parseInt(NatToString(page)) == Some(page) && parseInt("25") == Some(25)
    ensures var c := ScreenerApi.Decode(SentParams(f, sort, dir, page), parseFloat, parseInt);
            && c.sortColumn == sort
            && (c.ascending <==> dir == Ascending)
            && c.page == Some(page)
            && c.limit == Some(LIMIT)
            && (f.category == "All" ==> c.category == "")
            && c.issuer == f.issuer
  {
    SentFields(f, sort, dir, page);
  }

  /** The fields of the request the endpoint reads for sorting, paging, category and issuer. */
  lemma SentFields(f: Filters, sort: string, dir: SortDir, page: nat)
    ensures SentParams(f, sort, dir, page).sort == Some(sort)
    ensures SentParams(f, sort, dir, page).sortDir == Some(DirName(dir))
    ensures SentParams(f, sort, dir, page).page == Some(NatToString(page))
    ensures SentParams(f, sort, dir, page).limit == Some("25")
    ensures SentParams(f, sort, dir, page).category == (if f.category == "All" then None else AsOption(f.category))
    ensures SentParams(f, sort, dir, page).issuer == AsOption(f.issuer)
  {
    var ps := ParamsFor(f, sort, dir, page);
    FixedCarried(f, sort, dir, page, SortParam);
    FixedCarried(f, sort, dir, page, SortDirParam);
    FixedCarried(f, sort, dir, page, PageParam);
    FixedCarried(f, sort, dir, page, LimitParam);
    ProfileFiltersCarried(f, sort, dir, page, CategoryParam);
    ProfileFiltersCarried(f, sort, dir, page, IssuerParam);
    assert Lookup(ps, SortParam) == Some(sort);
    assert Lookup(ps, SortDirParam) == Some(DirName(dir));
    assert Lookup(ps, PageParam) == Some(NatToString(page));
    assert Lookup(ps, LimitParam) == Some("25");
  }

  // ------------------------------------------------------------ pager

  /** `Math.ceil(total / 25)`. */
  function PageCount(total: nat): (t: nat)
    ensures t == 0 <==> total == 0
    ensures total <= t * LIMIT && (t == 0 || (t - 1) * LIMIT < total)
  {
    (total + LIMIT - 1) / LIMIT
  }

  /** `[page - 1, page, page + 1].filter(n => n >= 0 && n < totalPages)`. */
  function PageWindow(page: int, totalPages: int): seq<int> {
    (if 0 <= page - 1 < totalPages then [page - 1] else [])
    + (if 0 <= page < totalPages then [page] else [])
    + (if 0 <= page + 1 < totalPages then [page + 1] else [])
  }

  /** The numbered buttons: the pages next to the current one that exist, in order. */
  lemma PageWindowMeaning(page: int, totalPages: int)
    ensures var w := PageWindow(page, totalPages);
            && (forall n :: n in w <==> page - 1 <= n <= page + 1 && 0 <= n < totalPages)
            && (forall i, j :: 0 <= i < j < |w| ==> w[i] < w[j])
            && |w| <= 3
  {
  }

  /** What the endpoint answered; a failed request changes nothing. */
  datatype Reply = ReplyFailed | ReplyJson(data: Option<seq<ScreenerApi.Row>>, total: Option<nat>, perfAvailable: Option<bool>)

  class Page {
    var filters: Filters
    var sort: string
    var sortDir: SortDir
    var page: int
    var data: seq<ScreenerApi.Row>
    var total: nat
    var perfAvailable: bool

    /** The initial state: default filters, AUM descending, first page, nothing loaded. */
    constructor ()
      ensures filters == DEFAULT_FILTERS && sort == "aum" && sortDir == Descending && page == 0
      ensures data == [] && total == 0 && perfAvailable
    {
      filters, sort, sortDir, page := DEFAULT_FILTERS, "aum", Descending, 0;
      data, total, perfAvailable := [], 0, true;
    }

    function TotalPages(): nat
      reads this
    {
      PageCount(total)
    }

    /** `setFilter`: one field changes and the page goes back to the first. */
    method SetFilter(key: FilterKey, val: string)
      modifies this
      ensures filters == With(old(filters), key, val) && page == 0
      ensures sort == old(sort) && sortDir == old(sortDir)
      ensures data == old(data) && total == old(total) && perfAvailable == old(perfAvailable)
    {
      filters := With(filters, key, val);
      page := 0;
    }

    method HandleSort(col: string)
      modifies this
      ensures (sort, sortDir) == SortAfter(old(sort), old(sortDir), col) && page == 0
      ensures filters == old(filters)
      ensures data == old(data) && total == old(total) && perfAvailable == old(perfAvailable)
    {
      if sort == col {
        sortDir := if sortDir == Ascending then Descending else Ascending;
      } else {
        sort, sortDir := col, Descending;
      }
      page := 0;
    }

    /** The reset button: default filters, AUM descending, first page. */
    method ResetFilters()
      modifies this
      ensures filters == DEFAULT_FILTERS && sort == "aum" && sortDir == Descending && page == 0
      ensures !HasFilters(filters)
      ensures data == old(data) && total == old(total) && perfAvailable == old(perfAvailable)
    {
      filters, sort, sortDir, page := DEFAULT_FILTERS, "aum", Descending, 0;
    }

    /** `← Prev`, enabled away from the first page. */
    method Prev()
      requires TotalPages() > 1 && page > 0
      modifies this
      ensures page == old(page) - 1 && page >= 0
      ensures filters == old(filters) && sort == old(sort) && sortDir == old(sortDir)
      ensures data == old(data) && total == old(total) && perfAvailable == old(perfAvailable)
    {
      page := page - 1;
    }

    /** `Next →`, enabled before the last page. */
    method Next()
      requires TotalPages() > 1 && 0 <= page < TotalPages() - 1
      modifies this
      ensures page == old(page) + 1 && page < TotalPages()
      ensures filters == old(filters) && sort == old(sort) && sortDir == old(sortDir)
      ensures data == old(data) && total == old(total) && perfAvailable == old(perfAvailable)
    {
      page := page + 1;
    }

    /** A numbered button, the first-page button or the last-page button. */
    method GoTo(n: int)
      requires TotalPages() > 1
      requires n in PageWindow(page, TotalPages()) || n == 0 || n == TotalPages() - 1
      modifies this
      ensures page == n && 0 <= page < TotalPages()
      ensures filters == old(filters) && sort == old(sort) && sortDir == old(sortDir)
      ensures data == old(data) && total == old(total) && perfAvailable == old(perfAvailable)
    {
      page := n;
    }

    /** The answer to the latest request: `data ?? []`, `total ?? 0`, `perfAvailable !== false`. */
    method Receive(reply: Reply)
      modifies this
      ensures reply.ReplyFailed? ==> data == old(data) && total == old(total) && perfAvailable == old(perfAvailable)
      ensures reply.ReplyJson? ==>
                && data == reply.data.GetOr([])
                && total == reply.total.GetOr(0)
                && (perfAvailable <==> reply.perfAvailable != Some(false))
      ensures filters == old(filters) && sort == old(sort) && sortDir == old(sortDir) && page == old(page)
    {
      if reply.ReplyJson? {
        data := reply.data.GetOr([]);
        total := reply.total.GetOr(0);
        perfAvailable := reply.perfAvailable != Some(false);
      }
    }

    /** The request the current state sends. */
    method Request() returns (ps: map<ParamName, string>)
      requires page >= 0
      ensures ps == ParamsFor(filters, sort, sortDir, page)
    {
      ps := BuildParams(filters, sort, sortDir, page);
    }
  }
}
