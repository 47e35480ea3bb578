/**
 * The ETF table: the fund list filtered by category and by a search text,
 * sorted by the chosen column in the chosen direction, and shown fifteen
 * rows a page.  The component's state (sort column, direction, category,
 * search text, page) is the state of a `Table` object whose methods are the
 * handlers.
 */
module EtfTable {
  import opened Wrappers
  import opened Text
  import opened Sorting
  import opened EtfData

  const PAGE_SIZE := 15

  /** The sort value of a fund without a price change (`changePct ?? -999`). */
  const MISSING_CHANGE := -999.0

  /** The category buttons. */
  const CATEGORIES := ["All", "US Equity", "Fixed Income", "Sector", "Commodities", "International",
                       "Digital Assets", "Thematic", "Leveraged"]

  datatype SortKey = AumKey | ChangePctKey | ExpenseRatioKey | TickerKey

  datatype SortDir = Ascending | Descending

  /** The value a numeric column sorts by. */
  function NumericValue(key: SortKey): Etf -> real {
    (e: Etf) =>
      match key
      case AumKey => e.aum
      case ChangePctKey => e.changePct.GetOr(MISSING_CHANGE)
      case ExpenseRatioKey => e.expenseRatio
      case TickerKey => 0.0
  }

  /**
   * The comparator: numeric columns by subtraction, the ticker column by
   * `localeCompare`, here code-unit order; descending swaps the operands.
   */
  function Order(key: SortKey, dir: SortDir): (Etf, Etf) -> bool {
    if key == TickerKey then
      (if dir == Ascending then (a: Etf, b: Etf) => StrLe(a.ticker, b.ticker)
       else (a: Etf, b: Etf) => StrLe(b.ticker, a.ticker))
    else if dir == Ascending then Asc(NumericValue(key))
    else Desc(NumericValue(key))
  }

  lemma OrderIsTotalPreorder(key: SortKey, dir: SortDir)
    ensures TotalPreorder(Order(key, dir))
  {
    if key == TickerKey {
      forall a: Etf, b: Etf ensures Order(key, dir)(a, b) || Order(key, dir)(b, a) {
        StrLeTotal(a.ticker, b.ticker);
      }
      forall a: Etf, b: Etf, c: Etf | Order(key, dir)(a, b) && Order(key, dir)(b, c)
        ensures Order(key, dir)(a, c)
      {
        if dir == Ascending {
          StrLeTransitive(a.ticker, b.ticker, c.ticker);
        } else {
          StrLeTransitive(c.ticker, b.ticker, a.ticker);
        }
      }
    } else if dir == Ascending {
      AscIsTotalPreorder(NumericValue(key));
    } else {
      DescIsTotalPreorder(NumericValue(key));
    }
  }

  /** The search text matches the ticker, the name or the issuer, case-insensitively. */
  predicate SearchHit(search: string, e: Etf) {
    var q := Lower(search);
    Contains(Lower(e.ticker), q) || Contains(Lower(e.name), q) || Contains(Lower(e.issuer), q)
  }

  /** The funds the table shows, before sorting. */
  predicate Shown(category: string, search: string, e: Etf) {
    && (category == "All" || e.category == category)
    && (search == "" || SearchHit(search, e))
  }

  /** The `filtered` memo, as the code computes it: two optional filters, then a sort of the copy. */
  function FilteredOf(etfs: seq<Etf>, category: string, search: string, key: SortKey, dir: SortDir): seq<Etf> {
    var byCategory := if category != "All" then Filter(etfs, (e: Etf) => e.category == category) else etfs;
    var bySearch := if search != "" then Filter(byCategory, (e: Etf) => SearchHit(search, e)) else byCategory;
    Sort(bySearch, Order(key, dir))
  }

  /** The filtered list is the funds that pass both tests, in their original order, sorted. */
  lemma FilteredIsSortedSelection(etfs: seq<Etf>, category: string, search: string, key: SortKey, dir: SortDir)
    ensures FilteredOf(etfs, category, search, key, dir) == Sort(Filter(etfs, (e: Etf) => Shown(category, search, e)), Order(key, dir))
  {
    var shown := (e: Etf) => Shown(category, search, e);
    var byCat := (e: Etf) => e.category == category;
    var hit := (e: Etf) => SearchHit(search, e);
    if category != "All" && search != "" {
      FilterFilter(etfs, byCat, hit, shown);
    } else if category != "All" {
      FilterAgree(etfs, byCat, shown);
    } else if search != "" {
      FilterAgree(etfs, hit, shown);
    } else {
      FilterAll(etfs, shown);
    }
  }

  /**
   * The filtered list holds exactly the funds that pass, each as often as in
   * the fund list, ordered by the comparator.
   */
  lemma FilteredMeaning(etfs: seq<Etf>, category: string, search: string, key: SortKey, dir: SortDir)
    ensures var r := FilteredOf(etfs, category, search, key, dir);
            && multiset(r) == multiset(Filter(etfs, (e: Etf) => Shown(category, search, e)))
            && (forall e :: e in r <==> e in etfs && Shown(category, search, e))
            && Sorted(r, Order(key, dir))
  {
    var sel := Filter(etfs, (e: Etf) => Shown(category, search, e));
    FilteredIsSortedSelection(etfs, category, search, key, dir);
    OrderIsTotalPreorder(key, dir);
    SortSorted(sel, Order(key, dir));
    SortMembers(sel, Order(key, dir));
    FilterMembers(etfs, (e: Etf) => Shown(category, search, e));
  }

  lemma ChangeDescending(r: seq<Etf>)
    requires Sorted(r, Desc(NumericValue(ChangePctKey)))
    ensures forall i, j :: 0 <= i < j < |r| && r[i].changePct.None? ==> r[j].changePct.GetOr(MISSING_CHANGE) <= MISSING_CHANGE
  {
    var key := NumericValue(ChangePctKey);
    forall i, j | 0 <= i < j < |r| && r[i].changePct.None?
      ensures r[j].changePct.GetOr(MISSING_CHANGE) <= MISSING_CHANGE
    {
      assert Desc(key)(r[i], r[j]);
      assert key(r[i]) == MISSING_CHANGE;
    }
  }

  /** Sorting by change, descending: after a fund without a change come only funds at or below -999. */
  lemma MissingChangeSortsLow(etfs: seq<Etf>, category: string, search: string)
    ensures var r := FilteredOf(etfs, category, search, ChangePctKey, Descending);
            forall i, j :: 0 <= i < j < |r| && r[i].changePct.None? ==> r[j].changePct.GetOr(MISSING_CHANGE) <= MISSING_CHANGE
  {
    FilteredMeaning(etfs, category, search, ChangePctKey, Descending);
    assert Order(ChangePctKey, Descending) == Desc(NumericValue(ChangePctKey));
    ChangeDescending(FilteredOf(etfs, category, search, ChangePctKey, Descending));
  }

  /** `Math.ceil(n / 15)`. */
  function PageCount(n: nat): (t: nat)
    ensures t == 0 <==> n == 0
    ensures n <= t * PAGE_SIZE && (t == 0 || (t - 1) * PAGE_SIZE < n)
  {
    (n + PAGE_SIZE - 1) / PAGE_SIZE
  }

  /** `filtered.slice(page * 15, (page + 1) * 15)`, clamped at the end. */
  function PageOf(rows: seq<Etf>, page: nat): (r: seq<Etf>)
    ensures |r| <= PAGE_SIZE
    ensures page * PAGE_SIZE + |r| <= |rows| || r == []
    ensures forall k :: 0 <= k < |r| ==> r[k] == rows[page * PAGE_SIZE + k]
  {
    var start := Min(page * PAGE_SIZE, |rows|);
    rows[start..Min((page + 1) * PAGE_SIZE, |rows|)]
  }

  /** Every filtered row is on exactly one page, at its place within the page. */
  lemma EveryRowOnItsPage(rows: seq<Etf>, k: nat)
    requires k < |rows|
    ensures k / PAGE_SIZE < PageCount(|rows|)
    ensures k % PAGE_SIZE < |PageOf(rows, k / PAGE_SIZE)| && PageOf(rows, k / PAGE_SIZE)[k % PAGE_SIZE] == rows[k]
  {
  }

  /** The pages before the last are full. */
  lemma FullPages(rows: seq<Etf>, page: nat)
    requires page + 1 < PageCount(|rows|)
    ensures |PageOf(rows, page)| == PAGE_SIZE
  {
  }

  /** `handleSort`: the current column flips the direction, a new column starts descending. */
  function SortAfter(key: SortKey, dir: SortDir, clicked: SortKey): (SortKey, SortDir) {
    if key == clicked then (key, if dir == Ascending then Descending else Ascending)
    else (clicked, Descending)
  }

  /** Clicking the same column twice restores the direction; a new column clicked twice ends ascending. */
  lemma SortTwice(key: SortKey, dir: SortDir, clicked: SortKey)
    ensures var (k1, d1) := SortAfter(key, dir, clicked);
            SortAfter(k1, d1, clicked) == if key == clicked then (key, dir) else (clicked, Ascending)
  {
  }

  class Table {
    var etfs: seq<Etf>
    var sortKey: SortKey
    var sortDir: SortDir
    var category: string
    var search: string
    var page: int

    /** The initial state: no funds, by AUM descending, every category, no search, first page. */
    constructor ()
      ensures etfs == [] && sortKey == AumKey && sortDir == Descending
      ensures category == "All" && search == "" && page == 0
      ensures Valid()
    {
      etfs, sortKey, sortDir := [], AumKey, Descending;
      category, search, page := "All", "", 0;
    }

    function Filtered(): seq<Etf>
      reads this
    {
      FilteredOf(etfs, category, search, sortKey, sortDir)
    }

    function TotalPages(): nat
      reads this
    {
      PageCount(|Filtered()|)
    }

    /** The rows of the current page. */
    function PageData(): seq<Etf>
      reads this
      requires page >= 0
    {
      PageOf(Filtered(), page)
    }

    /** The page is the first, or one that exists. */
    ghost predicate Valid()
      reads this
    {
      0 <= page && (page == 0 || page < TotalPages())
    }

    /** The mount-time fetch: `json.data ?? []`; it runs once, while the list is still empty. */
    method Load(data: Option<seq<Etf>>)
      requires Valid() && etfs == []
      modifies this
      ensures etfs == data.GetOr([])
      ensures sortKey == old(sortKey) && sortDir == old(sortDir) && category == old(category)
      ensures search == old(search) && page == old(page)
      ensures Valid()
    {
      etfs := data.GetOr([]);
    }

    method HandleSort(clicked: SortKey)
      modifies this
      ensures (sortKey, sortDir) == SortAfter(old(sortKey), old(sortDir), clicked)
      ensures page == 0
      ensures etfs == old(etfs) && category == old(category) && search == old(search)
      ensures Valid()
    {
      if sortKey == clicked {
        sortDir := if sortDir == Ascending then Descending else Ascending;
      } else {
        sortKey, sortDir := clicked, Descending;
      }
      page := 0;
    }

    /** Typing in the search box. */
    method SetSearch(text: string)
      modifies this
      ensures search == text && page == 0
      ensures etfs == old(etfs) && sortKey == old(sortKey) && sortDir == old(sortDir) && category == old(category)
      ensures Valid()
    {
      search, page := text, 0;
    }

    /** A category button. */
    method SetCategory(c: string)
      modifies this
      ensures category == c && page == 0
      ensures etfs == old(etfs) && sortKey == old(sortKey) && sortDir == old(sortDir) && search == old(search)
      ensures Valid()
    {
      category, page := c, 0;
    }

    /** `← Prev`: `Math.max(0, p - 1)`. */
    method Prev()
      requires Valid()
      modifies this
      ensures page == Max(0, old(page) - 1)
      ensures etfs == old(etfs) && sortKey == old(sortKey) && sortDir == old(sortDir)
      ensures category == old(category) && search == old(search)
      ensures Valid()
    {
      ghost var pages := TotalPages();
      page := Max(0, page - 1);
      assert TotalPages() == pages;
    }

    /** `Next →`, shown only with more than one page: `Math.min(totalPages - 1, p + 1)`. */
    method Next()
      requires Valid() && TotalPages() > 1
      modifies this
      ensures page == Min(old(TotalPages()) - 1, old(page) + 1)
      ensures etfs == old(etfs) && sortKey == old(sortKey) && sortDir == old(sortDir)
      ensures category == old(category) && search == old(search)
      ensures Valid() && page < TotalPages()
    {
      var pages := TotalPages();
      page := Min(pages - 1, page + 1);
      assert TotalPages() == pages;
    }
  }
}
