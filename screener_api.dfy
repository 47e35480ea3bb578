/**
 * The screener endpoint: request parameters converted to database units,
 * a query built one filter at a time, a page range, and a retry without
 * filters or performance columns when the database reports a missing
 * column.  `parseFloat` and `parseInt` are abstract, `None` standing for
 * NaN; the database is a function from the query to its answer.
 */
module ScreenerApi {
  import opened Wrappers
  import opened Text

  const VALID_SORTS := ["aum", "expense_ratio", "ytd_return", "one_year_return", "three_year_return", "ticker"]
  const DEFAULT_PAGE_SIZE := 25
  const MAX_PAGE_SIZE := 50
  const MILLION := 1000000.0

  /** The raw query-string values; `None` is an absent parameter. */
  datatype Params = Params(
    category: Option<string>, issuer: Option<string>,
    aumMin: Option<string>, aumMax: Option<string>, expenseMax: Option<string>,
    ytdMin: Option<string>, oneYearMin: Option<string>,
    sort: Option<string>, sortDir: Option<string>, page: Option<string>, limit: Option<string>)

  /** `parseFloat(raw ?? fallback)`, where the fallback parses to `absent`. */
  function Number(raw: Option<string>, parseFloat: string -> Option<real>, absent: Option<real>): Option<real> {
    if raw.None? then absent else parseFloat(raw.value)
  }

  /** NaN times or over a constant is NaN. */
  function Scale(x: Option<real>, factor: real): Option<real> {
    if x.None? then None else Some(x.value * factor)
  }

  /** AUM bounds are given in millions of dollars. */
  function AumMin(p: Params, parseFloat: string -> Option<real>): Option<real> {
    Scale(Number(p.aumMin, parseFloat, Some(0.0)), MILLION)
  }

  function AumMax(p: Params, parseFloat: string -> Option<real>): Option<real> {
    Scale(Number(p.aumMax, parseFloat, Some(0.0)), MILLION)
  }

  /** The expense ratio and the return thresholds are given in percent. */
  function ExpenseMax(p: Params, parseFloat: string -> Option<real>): Option<real> {
    Scale(Number(p.expenseMax, parseFloat, Some(0.0)), 1.0 / 100.0)
  }

  function YtdMin(p: Params, parseFloat: string -> Option<real>): Option<real> {
    Scale(Number(p.ytdMin, parseFloat, None), 1.0 / 100.0)
  }

  function OneYearMin(p: Params, parseFloat: string -> Option<real>): Option<real> {
    Scale(Number(p.oneYearMin, parseFloat, None), 1.0 / 100.0)
  }

  /** Unit conversions: millions to dollars, percent to a fraction. */
  lemma Conversions(p: Params, parseFloat: string -> Option<real>)
    ensures p.aumMin.Some? && parseFloat(p.aumMin.value).Some? ==>
              AumMin(p, parseFloat) == Some(parseFloat(p.aumMin.value).value * 1000000.0)
    ensures p.expenseMax.Some? && parseFloat(p.expenseMax.value).Some? ==>
              ExpenseMax(p, parseFloat) == Some(parseFloat(p.expenseMax.value).value / 100.0)
    ensures p.ytdMin.None? ==> YtdMin(p, parseFloat).None?
    ensures p.aumMin.None? ==> AumMin(p, parseFloat) == Some(0.0)
  {
  }

  /** `order(col)`: the requested column when it is a valid sort, else `aum`. */
  function SortColumn(p: Params): (col: string)
    ensures col in VALID_SORTS
    ensures p.sort.Some? && p.sort.value in VALID_SORTS ==> col == p.sort.value
    ensures (p.sort.None? || p.sort.value !in VALID_SORTS) ==> col == "aum"
  {
    if p.sort.Some? && p.sort.value in VALID_SORTS then p.sort.value else "aum"
  }

  predicate Ascending(p: Params) { p.sortDir == Some("asc") }

  /** `Math.max(0, parseInt(page ?? '0'))`: NaN stays NaN. */
  function PageIndex(p: Params, parseInt: string -> Option<int>): (page: Option<int>)
    ensures page.Some? ==> page.value >= 0
    ensures p.page.None? ==> page == Some(0)
  {
    var n := if p.page.None? then Some(0) else parseInt(p.page.value);
    if n.None? then None else Some(Max(0, n.value))
  }

  /** `Math.min(50, parseInt(limit ?? '25'))`. */
  function PageSize(p: Params, parseInt: string -> Option<int>): (limit: Option<int>)
    ensures limit.Some? ==> limit.value <= MAX_PAGE_SIZE
    ensures p.limit.None? ==> limit == Some(DEFAULT_PAGE_SIZE)
  {
    var n := if p.limit.None? then Some(DEFAULT_PAGE_SIZE) else parseInt(p.limit.value);
    if n.None? then None else Some(Min(MAX_PAGE_SIZE, n.value))
  }

  /** The filterable columns of `etfs`. */
  datatype Column = CategoryCol | IssuerCol | AumCol | ExpenseRatioCol | YtdReturnCol | OneYearReturnCol

  /** One condition of the query. */
  datatype Filter =
    | Eq(column: Column, text: string)
    | ILike(column: Column, text: string)
    | Gte(column: Column, bound: real)
    | Lte(column: Column, bound: real)

  /** A query: with or without the performance columns, its filters in order, its order and its range (NaN as `None`). */
  datatype Query = Query(perfColumns: bool, filters: seq<Filter>, orderColumn: string, ascending: bool,
                         from: Option<int>, to: Option<int>)

  /** `range(from, from + limit - 1)` with `from = page * limit`. */
  function Range(page: Option<int>, limit: Option<int>): (range: (Option<int>, Option<int>))
    ensures page.Some? && limit.Some? ==>
              range == (Some(page.value * limit.value), Some(page.value * limit.value + limit.value - 1))
    ensures page.None? || limit.None? ==> range == (None, None)
  {
    if page.None? || limit.None? then (None, None)
    else (Some(page.value * limit.value), Some(page.value * limit.value + limit.value - 1))
  }

  predicate Positive(x: Option<real>) { x.Some? && x.value > 0.0 }

  /** The request decoded: the values `GET` computes before building its query. */
  datatype Criteria = Criteria(
    category: string, issuer: string,
    aumMin: Option<real>, aumMax: Option<real>, expenseMax: Option<real>,
    ytdMin: Option<real>, oneYearMin: Option<real>,
    sortColumn: string, ascending: bool, page: Option<int>, limit: Option<int>)

  function Decode(p: Params, parseFloat: string -> Option<real>, parseInt: string -> Option<int>): (c: Criteria)
    ensures c.sortColumn in VALID_SORTS
    ensures c.page.Some? ==> c.page.value >= 0
    ensures c.limit.Some? ==> c.limit.value <= MAX_PAGE_SIZE
  {
    Criteria(p.category.GetOr(""), p.issuer.GetOr(""),
             AumMin(p, parseFloat), AumMax(p, parseFloat), ExpenseMax(p, parseFloat),
             YtdMin(p, parseFloat), OneYearMin(p, parseFloat),
             SortColumn(p), Ascending(p), PageIndex(p, parseInt), PageSize(p, parseInt))
  }

  /** `if (cond) query = query.op(…)`: the filter appended when the condition holds. */
  function AddIf(filters: seq<Filter>, cond: bool, f: Filter): seq<Filter> {
    if cond then filters + [f] else filters
  }

  /** The filters of `GET`, in the order they are added. */
  function FiltersFor(c: Criteria): seq<Filter> {
    var f1 := AddIf([], c.category != "" && c.category != "All", Eq(CategoryCol, c.category));
    var f2 := AddIf(f1, c.issuer != "", ILike(IssuerCol, "%" + c.issuer + "%"));
    var f3 := AddIf(f2, Positive(c.aumMin), Gte(AumCol, c.aumMin.GetOr(0.0)));
    var f4 := AddIf(f3, Positive(c.aumMax), Lte(AumCol, c.aumMax.GetOr(0.0)));
    var f5 := AddIf(f4, Positive(c.expenseMax), Lte(ExpenseRatioCol, c.expenseMax.GetOr(0.0)));
    var f6 := AddIf(f5, c.ytdMin.Some?, Gte(YtdReturnCol, c.ytdMin.GetOr(0.0)));
    AddIf(f6, c.oneYearMin.Some?, Gte(OneYearReturnCol, c.oneYearMin.GetOr(0.0)))
  }

  /** The query as built by `GET`. */
  function QueryFor(c: Criteria): Query {
    var range := Range(c.page, c.limit);
    Query(true, FiltersFor(c), c.sortColumn, c.ascending, range.0, range.1)
  }

  lemma AddIfIn(filters: seq<Filter>, cond: bool, f: Filter, x: Filter)
    ensures x in AddIf(filters, cond, f) <==> x in filters || (cond && x == f)
  {
  }

  /** A filter is in the plan exactly when one of the seven conditions adds it. */
  lemma FilterMember(c: Criteria, x: Filter)
    ensures x in FiltersFor(c) <==>
              || (c.category != "" && c.category != "All" && x == Eq(CategoryCol, c.category))
              || (c.issuer != "" && x == ILike(IssuerCol, "%" + c.issuer + "%"))
              || (Positive(c.aumMin) && x == Gte(AumCol, c.aumMin.value))
              || (Positive(c.aumMax) && x == Lte(AumCol, c.aumMax.value))
              || (Positive(c.expenseMax) && x == Lte(ExpenseRatioCol, c.expenseMax.value))
              || (c.ytdMin.Some? && x == Gte(YtdReturnCol, c.ytdMin.value))
              || (c.oneYearMin.Some? && x == Gte(OneYearReturnCol, c.oneYearMin.value))
  {
    var f1 := AddIf([], c.category != "" && c.category != "All", Eq(CategoryCol, c.category));
    var f2 := AddIf(f1, c.issuer != "", ILike(IssuerCol, "%" + c.issuer + "%"));
    var f3 := AddIf(f2, Positive(c.aumMin), Gte(AumCol, c.aumMin.GetOr(0.0)));
    var f4 := AddIf(f3, Positive(c.aumMax), Lte(AumCol, c.aumMax.GetOr(0.0)));
    var f5 := AddIf(f4, Positive(c.expenseMax), Lte(ExpenseRatioCol, c.expenseMax.GetOr(0.0)));
    var f6 := AddIf(f5, c.ytdMin.Some?, Gte(YtdReturnCol, c.ytdMin.GetOr(0.0)));
    AddIfIn([], c.category != "" && c.category != "All", Eq(CategoryCol, c.category), x);
    AddIfIn(f1, c.issuer != "", ILike(IssuerCol, "%" + c.issuer + "%"), x);
    AddIfIn(f2, Positive(c.aumMin), Gte(AumCol, c.aumMin.GetOr(0.0)), x);
    AddIfIn(f3, Positive(c.aumMax), Lte(AumCol, c.aumMax.GetOr(0.0)), x);
    AddIfIn(f4, Positive(c.expenseMax), Lte(ExpenseRatioCol, c.expenseMax.GetOr(0.0)), x);
    AddIfIn(f5, c.ytdMin.Some?, Gte(YtdReturnCol, c.ytdMin.GetOr(0.0)), x);
    AddIfIn(f6, c.oneYearMin.Some?, Gte(OneYearReturnCol, c.oneYearMin.GetOr(0.0)), x);
  }

  /** Each filter is in the plan exactly when its parameter asks for it, with the value it asks for. */
  lemma FilterPlan(c: Criteria)
    ensures var fs := FiltersFor(c);
            && (forall v :: Eq(CategoryCol, v) in fs <==> v == c.category && v != "" && v != "All")
            && (forall t :: ILike(IssuerCol, t) in fs <==> c.issuer != "" && t == "%" + c.issuer + "%")
            && (forall b :: Gte(AumCol, b) in fs <==> Positive(c.aumMin) && b == c.aumMin.value)
            && (forall b :: Lte(AumCol, b) in fs <==> Positive(c.aumMax) && b == c.aumMax.value)
            && (forall b :: Lte(ExpenseRatioCol, b) in fs <==> Positive(c.expenseMax) && b == c.expenseMax.value)
            && (forall b :: Gte(YtdReturnCol, b) in fs <==> c.ytdMin == Some(b))
            && (forall b :: Gte(OneYearReturnCol, b) in fs <==> c.oneYearMin == Some(b))
  {
    forall v ensures Eq(CategoryCol, v) in FiltersFor(c) <==> v == c.category && v != "" && v != "All" {
      FilterMember(c, Eq(CategoryCol, v));
    }
    forall t ensures ILike(IssuerCol, t) in FiltersFor(c) <==> c.issuer != "" && t == "%" + c.issuer + "%" {
      FilterMember(c, ILike(IssuerCol, t));
    }
    forall b ensures Gte(AumCol, b) in FiltersFor(c) <==> Positive(c.aumMin) && b == c.aumMin.value {
      FilterMember(c, Gte(AumCol, b));
    }
    forall b ensures Lte(AumCol, b) in FiltersFor(c) <==> Positive(c.aumMax) && b == c.aumMax.value {
      FilterMember(c, Lte(AumCol, b));
    }
    forall b ensures Lte(ExpenseRatioCol, b) in FiltersFor(c) <==> Positive(c.expenseMax) && b == c.expenseMax.value {
      FilterMember(c, Lte(ExpenseRatioCol, b));
    }
    forall b ensures Gte(YtdReturnCol, b) in FiltersFor(c) <==> c.ytdMin == Some(b) {
      FilterMember(c, Gte(YtdReturnCol, b));
    }
    forall b ensures Gte(OneYearReturnCol, b) in FiltersFor(c) <==> c.oneYearMin == Some(b) {
      FilterMember(c, Gte(OneYearReturnCol, b));
    }
  }

  /** At most one filter per condition. */
  lemma FilterCount(c: Criteria)
    ensures |FiltersFor(c)| <= 7
  {
  }

  /** No parameters, no filters: the whole table in AUM order, first page of 25. */
  lemma NoParamsNoFilters(parseFloat: string -> Option<real>, parseInt: string -> Option<int>)
    ensures var q := QueryFor(Decode(Params(None, None, None, None, None, None, None, None, None, None, None), parseFloat, parseInt));
            q.filters == [] && q.orderColumn == "aum" && !q.ascending && q.from == Some(0) && q.to == Some(24)
  {
  }

  /** One `if (…) query = query.eq(…)` step: the filter is appended exactly when its condition holds. */
  method Narrow(filters: seq<Filter>, cond: bool, f: Filter) returns (r: seq<Filter>)
    ensures r == AddIf(filters, cond, f)
  {
    r := filters;
    if cond {
      r := r + [f];
    }
  }

  /** The `let query = …; if (…) query = query.eq(…); …` sequence. */
  method BuildQuery(c: Criteria) returns (query: Query)
    ensures query == QueryFor(c)
  {
    var filters: seq<Filter> := [];
    filters := Narrow(filters, c.category != "" && c.category != "All", Eq(CategoryCol, c.category));
    filters := Narrow(filters, c.issuer != "", ILike(IssuerCol, "%" + c.issuer + "%"));
    filters := Narrow(filters, Positive(c.aumMin), Gte(AumCol, c.aumMin.GetOr(0.0)));
    filters := Narrow(filters, Positive(c.aumMax), Lte(AumCol, c.aumMax.GetOr(0.0)));
    filters := Narrow(filters, Positive(c.expenseMax), Lte(ExpenseRatioCol, c.expenseMax.GetOr(0.0)));
    filters := Narrow(filters, c.ytdMin.Some?, Gte(YtdReturnCol, c.ytdMin.GetOr(0.0)));
    filters := Narrow(filters, c.oneYearMin.Some?, Gte(OneYearReturnCol, c.oneYearMin.GetOr(0.0)));
    var range := Range(c.page, c.limit);
    query := Query(true, filters, c.sortColumn, c.ascending, range.0, range.1);
  }

  /** The retry: no performance columns, no filters, AUM descending, the same range. */
  function FallbackQuery(q: Query): (f: Query)
    ensures !f.perfColumns && f.filters == [] && f.orderColumn == "aum" && !f.ascending
    ensures f.from == q.from && f.to == q.to
  {
    Query(false, [], "aum", false, q.from, q.to)
  }

  /** A row as column name to value. */
  type Row = map<string, string>

  datatype Answer = Rows(data: Option<seq<Row>>, count: Option<int>) | Failed(message: string)

  datatype Response =
    | DbUnavailable
    | ServerError(message: string)
    | Page(data: seq<Row>, total: int, page: Option<int>, limit: Option<int>, perfAvailable: bool)

  /** The error is read as a missing column. */
  predicate MissingColumn(message: string) {
    Contains(message, "column") || Contains(message, "does not exist")
  }

  /** `GET`: build the query, run it, and on a missing-column error run the basic query instead. */
  method Get(p: Params, parseFloat: string -> Option<real>, parseInt: string -> Option<int>, clientReady: bool,
             run: Query -> Answer) returns (r: Response)
    ensures !clientReady <==> r == DbUnavailable
    ensures r.Page? ==> r.page == PageIndex(p, parseInt) && r.limit == PageSize(p, parseInt)
    ensures r.Page? && r.perfAvailable ==>
              && run(QueryFor(Decode(p, parseFloat, parseInt))).Rows?
              && r.data == run(QueryFor(Decode(p, parseFloat, parseInt))).data.GetOr([])
              && r.total == run(QueryFor(Decode(p, parseFloat, parseInt))).count.GetOr(0)
    ensures r.Page? && !r.perfAvailable ==>
              && run(QueryFor(Decode(p, parseFloat, parseInt))).Failed?
              && MissingColumn(run(QueryFor(Decode(p, parseFloat, parseInt))).message)
              && run(FallbackQuery(QueryFor(Decode(p, parseFloat, parseInt)))).Rows?
              && r.data == run(FallbackQuery(QueryFor(Decode(p, parseFloat, parseInt)))).data.GetOr([])
              && r.total == run(FallbackQuery(QueryFor(Decode(p, parseFloat, parseInt)))).count.GetOr(0)
    ensures clientReady && run(QueryFor(Decode(p, parseFloat, parseInt))).Rows? ==> r.Page? && r.perfAvailable
    ensures (clientReady && run(QueryFor(Decode(p, parseFloat, parseInt))).Failed?
             && MissingColumn(run(QueryFor(Decode(p, parseFloat, parseInt))).message)
             && run(FallbackQuery(QueryFor(Decode(p, parseFloat, parseInt)))).Rows?) ==> r.Page? && !r.perfAvailable
    ensures (clientReady && run(QueryFor(Decode(p, parseFloat, parseInt))).Failed?
             && MissingColumn(run(QueryFor(Decode(p, parseFloat, parseInt))).message)
             && run(FallbackQuery(QueryFor(Decode(p, parseFloat, parseInt)))).Failed?) ==>
              r == ServerError(run(FallbackQuery(QueryFor(Decode(p, parseFloat, parseInt)))).message)
    ensures (clientReady && run(QueryFor(Decode(p, parseFloat, parseInt))).Failed?
             && !MissingColumn(run(QueryFor(Decode(p, parseFloat, parseInt))).message)) ==>
              r == ServerError(run(QueryFor(Decode(p, parseFloat, parseInt))).message)
    ensures r.ServerError? ==> run(QueryFor(Decode(p, parseFloat, parseInt))).Failed?
  {
    if !clientReady {
      return DbUnavailable;
    }
    var query := BuildQuery(Decode(p, parseFloat, parseInt));
    var answer := run(query);
    if answer.Failed? {
      if MissingColumn(answer.message) {
        var basic := run(FallbackQuery(query));
        if basic.Failed? {
          return ServerError(basic.message);
        }
        return Page(basic.data.GetOr([]), basic.count.GetOr(0), PageIndex(p, parseInt), PageSize(p, parseInt), false);
      }
      return ServerError(answer.message);
    }
    return Page(answer.data.GetOr([]), answer.count.GetOr(0), PageIndex(p, parseInt), PageSize(p, parseInt), true);
  }
}
