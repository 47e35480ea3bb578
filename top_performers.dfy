/**
 * The top-performers panel: the funds of the selected category that have a
 * return for the selected period, best first, each drawn as a bar scaled by
 * the largest absolute return (at least 1%).
 */
module TopPerformers {
  import opened Wrappers
  import opened Sorting

  /** One fund as the performers endpoint returns it. */
  datatype Entry = Entry(ticker: string, name: string, category: string,
                         ytd: Option<real>, oneYear: Option<real>, twoYear: Option<real>, threeYear: Option<real>)

  datatype Period = Ytd | OneYear | TwoYear | ThreeYear

  /** The smallest bar scale, `0.01`. */
  const MIN_SCALE := 0.01

  const CATEGORIES := ["All", "US Equity", "Fixed Income", "International", "Sector", "Thematic"]

  /** `e[period]`. */
  function ValueOf(e: Entry, p: Period): Option<real> {
    match p
    case Ytd => e.ytd
    case OneYear => e.oneYear
    case TwoYear => e.twoYear
    case ThreeYear => e.threeYear
  }

  /** `fmtReturn` around a number formatter: a dash for a missing return, an explicit `+` for a non-negative one. */
  function FmtReturn(v: Option<real>, fixed: real -> string): (r: string)
    ensures v.None? <==> r == "—"
    ensures v.Some? ==> r != [] && r[|r| - 1] == '%' && (v.value >= 0.0 ==> r[0] == '+')
  {
    if v.None? then "—"
    else
      var digits := fixed(v.value * 100.0);
      var r := (if v.value >= 0.0 then "+" else "") + (digits + "%");
      assert r[|r| - 1] == '%';
      r
  }

  function Key(p: Period): Entry -> real {
    (e: Entry) => ValueOf(e, p).GetOr(0.0)
  }

  predicate InCategory(category: string, e: Entry) {
    category == "All" || e.category == category
  }

  predicate HasValue(p: Period, e: Entry) {
    ValueOf(e, p).Some?
  }

  /** The `ranked` memo: the category's funds, those with a value for the period, by value descending. */
  function Ranked(data: seq<Entry>, p: Period, category: string): seq<Entry> {
    var filtered := if category == "All" then data else Filter(data, (e: Entry) => e.category == category);
    Sort(Filter(filtered, (e: Entry) => HasValue(p, e)), Desc(Key(p)))
  }

  /** The funds the panel ranks, in data order. */
  function Selection(data: seq<Entry>, p: Period, category: string): seq<Entry> {
    Filter(data, (e: Entry) => InCategory(category, e) && HasValue(p, e))
  }

  /** The ranking is the selection, sorted. */
  lemma RankedIsSortedSelection(data: seq<Entry>, p: Period, category: string)
    ensures Ranked(data, p, category) == Sort(Selection(data, p, category), Desc(Key(p)))
  {
    var both := (e: Entry) => InCategory(category, e) && HasValue(p, e);
    var has := (e: Entry) => HasValue(p, e);
    if category == "All" {
      FilterAgree(data, has, both);
    } else {
      FilterFilter(data, (e: Entry) => e.category == category, has, both);
    }
  }

  /** Sorting a selection keeps its elements and orders them by the key. */
  lemma SortedSelection(sel: seq<Entry>, p: Period)
    ensures var r := Sort(sel, Desc(Key(p)));
            && multiset(r) == multiset(sel)
            && (forall e :: e in r <==> e in sel)
            && (forall i, j :: 0 <= i < j < |r| ==> Key(p)(r[i]) >= Key(p)(r[j]))
  {
    var r := Sort(sel, Desc(Key(p)));
    SortedDesc(sel, Key(p));
    forall e ensures e in r <==> e in sel {
      assert e in r <==> e in multiset(sel);
    }
  }

  /**
   * The ranking holds exactly the funds of the category with a value for the
   * period, each as often as in the data, best first.
   */
  lemma RankedMeaning(data: seq<Entry>, p: Period, category: string)
    ensures var r := Ranked(data, p, category);
            && multiset(r) == multiset(Selection(data, p, category))
            && (forall e :: e in r <==> e in data && InCategory(category, e) && HasValue(p, e))
            && (forall i, j :: 0 <= i < j < |r| ==> Key(p)(r[i]) >= Key(p)(r[j]))
  {
    RankedIsSortedSelection(data, p, category);
    SortedSelection(Selection(data, p, category), p);
  }

  function Abs(x: real): real { if x < 0.0 then -x else x }

  /** `Math.max(...values, 0.01)`. */
  function MaxWith(values: seq<real>, floor: real): (m: real)
    ensures m >= floor
    ensures forall i :: 0 <= i < |values| ==> values[i] <= m
    ensures m == floor || exists i :: 0 <= i < |values| && values[i] == m
  {
    if values == [] then floor
    else
      var front := values[..|values| - 1];
      var last := values[|values| - 1];
      var m := MaxWith(front, floor);
      assert forall i :: 0 <= i < |front| ==> front[i] == values[i];
      if last > m then last else m
  }

  /** The `maxAbs` memo: 1 with nothing ranked, else the largest absolute value and 0.01. */
  function MaxAbs(ranked: seq<Entry>, p: Period): real {
    if |ranked| == 0 then 1.0
    else MaxWith(seq(|ranked|, i requires 0 <= i < |ranked| => Abs(Key(p)(ranked[i]))), MIN_SCALE)
  }

  /**
   * The scale is positive and no bar is longer than the panel: every
   * `|value| / maxAbs` of the listed funds is at most 1.
   */
  lemma BarsFit(r: seq<Entry>, p: Period)
    ensures MaxAbs(r, p) >= MIN_SCALE
    ensures forall e :: e in r ==> 0.0 <= Abs(Key(p)(e)) / MaxAbs(r, p) <= 1.0
  {
    if |r| > 0 {
      var values := seq(|r|, i requires 0 <= i < |r| => Abs(Key(p)(r[i])));
      forall e | e in r ensures 0.0 <= Abs(Key(p)(e)) / MaxAbs(r, p) <= 1.0 {
        var i :| 0 <= i < |r| && r[i] == e;
        assert values[i] == Abs(Key(p)(e));
        QuotientAtMostOne(values[i], MaxAbs(r, p));
      }
    }
  }

  lemma QuotientAtMostOne(a: real, m: real)
    requires 0.0 <= a <= m && m > 0.0
    ensures 0.0 <= a / m <= 1.0
  {
  }

  /** The scale is the largest absolute value when that reaches 1%. */
  lemma ScaleIsLargest(r: seq<Entry>, p: Period)
    requires r != []
    ensures MaxAbs(r, p) == MIN_SCALE || exists e :: e in r && MaxAbs(r, p) == Abs(Key(p)(e))
  {
    var values := seq(|r|, i requires 0 <= i < |r| => Abs(Key(p)(r[i])));
    if MaxAbs(r, p) != MIN_SCALE {
      var i :| 0 <= i < |values| && values[i] == MaxAbs(r, p);
      assert r[i] in r;
    }
  }
}
