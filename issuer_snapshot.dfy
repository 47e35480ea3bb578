/**
 * The issuer panel: the funds the ETF list returns grouped by issuer, each
 * issuer with its number of funds, its summed AUM and its share of the total
 * AUM, ranked by AUM and cut to the ten largest.  The bars are scaled by the
 * largest issuer's AUM.
 */
module IssuerSnapshot {
  import opened Sorting
  import opened Groups
  import opened EtfData

  const TOP_ISSUERS := 10

  /** One issuer's running totals. */
  datatype Acc = Acc(aum: real, count: nat)

  datatype IssuerRow = IssuerRow(issuer: string, totalAum: real, etfCount: nat, marketShare: real)

  function IssuerOf(e: Etf): string { e.issuer }

  function AumOf(e: Etf): real { e.aum }

  /** The totals the loop accumulates for issuer `k`, specified directly. */
  function AccOf(etfs: seq<Etf>, k: string): Acc {
    Acc(SumWhere(etfs, IssuerOf, k, AumOf), CountWhere(etfs, IssuerOf, k))
  }

  lemma AccOfSnoc(s: seq<Etf>, e: Etf, k: string)
    ensures AccOf(s + [e], k) == if e.issuer == k then Acc(AccOf(s, k).aum + e.aum, AccOf(s, k).count + 1) else AccOf(s, k)
  {
    assert (s + [e])[..|s|] == s;
  }

  lemma DistinctKeysSnoc(s: seq<Etf>, e: Etf)
    ensures DistinctKeys(s + [e], IssuerOf) ==
              if e.issuer in DistinctKeys(s, IssuerOf) then DistinctKeys(s, IssuerOf)
              else DistinctKeys(s, IssuerOf) + [e.issuer]
  {
    assert (s + [e])[..|s|] == s;
  }

  /** The loop's invariant: `keys` and `acc` hold the issuers and totals of the funds `s` seen so far. */
  ghost predicate Aggregated(s: seq<Etf>, keys: seq<string>, acc: map<string, Acc>) {
    && keys == DistinctKeys(s, IssuerOf)
    && (forall k :: k in acc <==> k in keys)
    && (forall k :: k in acc ==> acc[k] == AccOf(s, k))
  }

  /** Adding the fund to its issuer's running totals keeps every entry equal to its issuer's sums. */
  lemma StepValues(s: seq<Etf>, e: Etf, acc: map<string, Acc>, start: Acc, acc': map<string, Acc>)
    requires forall k :: k in acc ==> acc[k] == AccOf(s, k)
    requires start == AccOf(s, e.issuer)
    requires acc' == acc[e.issuer := Acc(start.aum + e.aum, start.count + 1)]
    ensures forall k :: k in acc' ==> acc'[k] == AccOf(s + [e], k)
  {
    forall k | k in acc' ensures acc'[k] == AccOf(s + [e], k) {
      AccOfSnoc(s, e, k);
    }
  }

  /** The keys grow by the fund's issuer exactly when it is new. */
  lemma StepKeys(s: seq<Etf>, e: Etf, keys: seq<string>, acc: set<string>, keys': seq<string>, acc': set<string>)
    requires keys == DistinctKeys(s, IssuerOf)
    requires forall k :: k in acc <==> k in keys
    requires keys' == if e.issuer in acc then keys else keys + [e.issuer]
    requires acc' == acc + {e.issuer}
    ensures keys' == DistinctKeys(s + [e], IssuerOf)
    ensures forall k :: k in acc' <==> k in keys'
  {
    DistinctKeysSnoc(s, e);
  }

  /** One loop iteration keeps the invariant, given the issuer's totals before the fund. */
  lemma AggregateStep(s: seq<Etf>, e: Etf, keys: seq<string>, acc: map<string, Acc>,
                      start: Acc, keys': seq<string>, acc': map<string, Acc>)
    requires Aggregated(s, keys, acc)
    requires start == AccOf(s, e.issuer)
    requires keys' == if e.issuer in acc then keys else keys + [e.issuer]
    requires acc' == acc[e.issuer := Acc(start.aum + e.aum, start.count + 1)]
    ensures Aggregated(s + [e], keys', acc')
  {
    StepValues(s, e, acc, start, acc');
    StepKeys(s, e, keys, acc.Keys, keys', acc'.Keys);
  }

  /** The loop body: create the issuer's entry on its first fund, then add the fund. */
  method AddToIssuer(s: seq<Etf>, e: Etf, keys: seq<string>, acc: map<string, Acc>)
    returns (keys': seq<string>, acc': map<string, Acc>)
    requires Aggregated(s, keys, acc)
    ensures Aggregated(s + [e], keys', acc')
  {
    var k := e.issuer;
    keys', acc' := keys, acc;
    if k !in acc' {
      NoFundOf(s, k);
      acc' := acc'[k := Acc(0.0, 0)];
      keys' := keys' + [k];
    }
    var start := acc'[k];
    acc' := acc'[k := Acc(start.aum + e.aum, start.count + 1)];
    assert acc' == acc[k := Acc(start.aum + e.aum, start.count + 1)];
    AggregateStep(s, e, keys, acc, start, keys', acc');
  }

  /** An issuer not yet seen has no funds and no AUM. */
  lemma NoFundOf(s: seq<Etf>, k: string)
    requires k !in DistinctKeys(s, IssuerOf)
    ensures AccOf(s, k) == Acc(0.0, 0)
  {
    assert forall j :: 0 <= j < |s| ==> IssuerOf(s[j]) != k;
    SumWhereAbsent(s, IssuerOf, k, AumOf);
  }

  /**
   * The `for (const e of etfs)` loop: one dictionary entry per issuer,
   * created on its first fund; `keys` is the entry order `Object.entries`
   * reads back.
   */
  method Aggregate(etfs: seq<Etf>) returns (keys: seq<string>, acc: map<string, Acc>)
    ensures keys == DistinctKeys(etfs, IssuerOf)
    ensures forall k :: k in acc <==> k in keys
    ensures forall k :: k in acc ==> acc[k] == AccOf(etfs, k)
  {
    keys, acc := [], map[];
    for i := 0 to |etfs|
      invariant Aggregated(etfs[..i], keys, acc)
    {
      assert etfs[..i + 1] == etfs[..i] + [etfs[i]];
      keys, acc := AddToIssuer(etfs[..i], etfs[i], keys, acc);
    }
    assert etfs[..|etfs|] == etfs;
  }

  /** `Object.values(map).reduce((s, v) => s + v.aum, 0)` over the entries `ks`. */
  function AumTotal(acc: map<string, Acc>, ks: seq<string>): real
    requires forall k :: k in ks ==> k in acc
  {
    if ks == [] then 0.0 else AumTotal(acc, ks[..|ks| - 1]) + acc[ks[|ks| - 1]].aum
  }

  /** The total is the AUM of the whole universe. */
  lemma {:induction false} AumTotalIsSum(etfs: seq<Etf>, acc: map<string, Acc>, ks: seq<string>)
    requires forall k :: k in ks ==> k in acc && acc[k] == AccOf(etfs, k)
    ensures AumTotal(acc, ks) == SumOver(etfs, IssuerOf, ks, AumOf)
  {
    if ks != [] {
      AumTotalIsSum(etfs, acc, ks[..|ks| - 1]);
    }
  }

  /** `totalAum > 0 ? aum / totalAum : 0`. */
  function Share(aum: real, total: real): (s: real)
    ensures total > 0.0 && 0.0 <= aum <= total ==> 0.0 <= s <= 1.0
    ensures total <= 0.0 ==> s == 0.0
  {
    if total > 0.0 then aum / total else 0.0
  }

  /** The `map` to one row per entry, in entry order. */
  function RowsFor(acc: map<string, Acc>, ks: seq<string>, total: real): (rows: seq<IssuerRow>)
    requires forall k :: k in ks ==> k in acc
    ensures |rows| == |ks|
    ensures forall i :: 0 <= i < |ks| ==>
              rows[i] == IssuerRow(ks[i], acc[ks[i]].aum, acc[ks[i]].count, Share(acc[ks[i]].aum, total))
  {
    seq(|ks|, i requires 0 <= i < |ks| => IssuerRow(ks[i], acc[ks[i]].aum, acc[ks[i]].count, Share(acc[ks[i]].aum, total)))
  }

  function TotalAumOf(r: IssuerRow): real { r.totalAum }

  /** The `issuers` memo: aggregate, total, one row per issuer, rank by AUM, keep ten. */
  method Issuers(etfs: seq<Etf>) returns (rows: seq<IssuerRow>, all: seq<IssuerRow>)
    ensures all == AllRows(etfs)
    ensures rows == SliceTo(Sort(all, Desc(TotalAumOf)), TOP_ISSUERS)
  {
    var keys, acc := Aggregate(etfs);
    var total := AumTotal(acc, keys);
    AumTotalIsSum(etfs, acc, keys);
    SumOverDistinctKeys(etfs, IssuerOf, AumOf);
    all := RowsFor(acc, keys, total);
    rows := SliceTo(Sort(all, Desc(TotalAumOf)), TOP_ISSUERS);
  }

  /** Issuer `k`'s row, specified: its funds' summed AUM, their number and its share of the universe. */
  function RowFor(etfs: seq<Etf>, k: string): IssuerRow {
    var aum := SumWhere(etfs, IssuerOf, k, AumOf);
    IssuerRow(k, aum, CountWhere(etfs, IssuerOf, k), Share(aum, SumAll(etfs, AumOf)))
  }

  /** The unranked rows, specified: one per distinct issuer in order of first appearance. */
  function AllRows(etfs: seq<Etf>): (rows: seq<IssuerRow>)
    ensures |rows| == |DistinctKeys(etfs, IssuerOf)|
    ensures forall i :: 0 <= i < |rows| ==> rows[i] == RowFor(etfs, DistinctKeys(etfs, IssuerOf)[i])
  {
    var ks := DistinctKeys(etfs, IssuerOf);
    seq(|ks|, i requires 0 <= i < |ks| => RowFor(etfs, ks[i]))
  }

  function RowIssuer(r: IssuerRow): string { r.issuer }

  /** Each issuer has one row. */
  lemma AllRowsUnique(etfs: seq<Etf>)
    ensures UniqueKeys(AllRows(etfs), RowIssuer)
  {
    var all := AllRows(etfs);
    var ks := DistinctKeys(etfs, IssuerOf);
    assert forall i :: 0 <= i < |all| ==> RowIssuer(all[i]) == ks[i];
  }

  /** Ranking and cutting any list of distinct issuers' rows. */
  lemma TopRanked(all: seq<IssuerRow>, rows: seq<IssuerRow>)
    requires UniqueKeys(all, RowIssuer)
    requires rows == SliceTo(Sort(all, Desc(TotalAumOf)), TOP_ISSUERS)
    ensures |rows| == (if |all| <= TOP_ISSUERS then |all| else TOP_ISSUERS)
    ensures forall i, j :: 0 <= i < j < |rows| ==> rows[i].totalAum >= rows[j].totalAum
    ensures forall r :: r in rows ==> r in all
    ensures UniqueKeys(rows, RowIssuer)
  {
    var sorted := Sort(all, Desc(TotalAumOf));
    SortedRows(all, sorted);
    PrefixRanked(all, sorted, rows);
  }

  /** Sorting the rows by AUM ranks them, keeps only rows of `all`, and keeps issuers unique. */
  lemma SortedRows(all: seq<IssuerRow>, sorted: seq<IssuerRow>)
    requires UniqueKeys(all, RowIssuer)
    requires sorted == Sort(all, Desc(TotalAumOf))
    ensures forall i, j :: 0 <= i < j < |sorted| ==> sorted[i].totalAum >= sorted[j].totalAum
    ensures forall r :: r in sorted ==> r in all
    ensures UniqueKeys(sorted, RowIssuer)
  {
    SortedDesc(all, TotalAumOf);
    forall i, j | 0 <= i < j < |sorted| ensures sorted[i].totalAum >= sorted[j].totalAum {
      assert TotalAumOf(sorted[i]) >= TotalAumOf(sorted[j]);
    }
    UniqueKeysPermuted(all, sorted, RowIssuer);
    forall r | r in sorted ensures r in all {
      assert r in multiset(sorted);
    }
  }

  /** A prefix of a ranking is a ranking of some of its rows, still with no issuer twice. */
  lemma PrefixRanked(all: seq<IssuerRow>, sorted: seq<IssuerRow>, rows: seq<IssuerRow>)
    requires rows <= sorted
    requires forall i, j :: 0 <= i < j < |sorted| ==> sorted[i].totalAum >= sorted[j].totalAum
    requires forall r :: r in sorted ==> r in all
    requires UniqueKeys(sorted, RowIssuer)
    ensures forall i, j :: 0 <= i < j < |rows| ==> rows[i].totalAum >= rows[j].totalAum
    ensures forall r :: r in rows ==> r in all
    ensures UniqueKeys(rows, RowIssuer)
  {
    assert forall i :: 0 <= i < |rows| ==> rows[i] == sorted[i];
  }

  /**
   * The ranked panel: at most ten issuers, largest AUM first, each with its
   * own row, none twice, and no issuer left out has more AUM than one shown.
   */
  lemma RankedIssuers(etfs: seq<Etf>)
    ensures var rows := SliceTo(Sort(AllRows(etfs), Desc(TotalAumOf)), TOP_ISSUERS);
            && |rows| == (if |AllRows(etfs)| <= TOP_ISSUERS then |AllRows(etfs)| else TOP_ISSUERS)
            && (forall i, j :: 0 <= i < j < |rows| ==> rows[i].totalAum >= rows[j].totalAum)
            && (forall r :: r in rows ==> r in AllRows(etfs))
            && UniqueKeys(rows, RowIssuer)
    ensures var rows := SliceTo(Sort(AllRows(etfs), Desc(TotalAumOf)), TOP_ISSUERS);
            forall r, q :: r in rows && q in AllRows(etfs) && q !in rows ==> r.totalAum >= q.totalAum
  {
    var all := AllRows(etfs);
    AllRowsUnique(etfs);
    TopRanked(all, SliceTo(Sort(all, Desc(TotalAumOf)), TOP_ISSUERS));
    LeftOutLighter(all);
  }

  /** Cutting the ranked rows to ten leaves out no row with more AUM than one kept. */
  lemma LeftOutLighter(all: seq<IssuerRow>)
    ensures var rows := SliceTo(Sort(all, Desc(TotalAumOf)), TOP_ISSUERS);
            forall r, q :: r in rows && q in all && q !in rows ==> r.totalAum >= q.totalAum
  {
    var rows := SliceTo(Sort(all, Desc(TotalAumOf)), TOP_ISSUERS);
    TopByKey(all, TotalAumOf, TOP_ISSUERS);
    forall r, q | r in rows && q in all && q !in rows ensures r.totalAum >= q.totalAum {
      assert q in multiset(all) - multiset(rows);
      assert TotalAumOf(r) >= TotalAumOf(q);
    }
  }

  /** `issuers[0]?.totalAum ?? 1`: the largest issuer's AUM, 1 for an empty panel. */
  function BarScale(rows: seq<IssuerRow>): real {
    if rows == [] then 1.0 else rows[0].totalAum
  }

  /** No bar is longer than the first: every issuer shown is within the scale. */
  lemma BarsFit(etfs: seq<Etf>)
    ensures var rows := SliceTo(Sort(AllRows(etfs), Desc(TotalAumOf)), TOP_ISSUERS);
            forall r :: r in rows ==> r.totalAum <= BarScale(rows)
  {
    var rows := SliceTo(Sort(AllRows(etfs), Desc(TotalAumOf)), TOP_ISSUERS);
    RankedIssuers(etfs);
    forall r | r in rows ensures r.totalAum <= BarScale(rows) {
      var i :| 0 <= i < |rows| && rows[i] == r;
      if i > 0 {
        assert rows[0].totalAum >= rows[i].totalAum;
      }
    }
  }

  function CountSum(rows: seq<IssuerRow>): nat {
    if rows == [] then 0 else CountSum(rows[..|rows| - 1]) + rows[|rows| - 1].etfCount
  }

  function AumSum(rows: seq<IssuerRow>): real {
    if rows == [] then 0.0 else AumSum(rows[..|rows| - 1]) + rows[|rows| - 1].totalAum
  }

  function ShareSum(rows: seq<IssuerRow>): real {
    if rows == [] then 0.0 else ShareSum(rows[..|rows| - 1]) + rows[|rows| - 1].marketShare
  }

  lemma SplitQuotient(a: real, b: real, t: real)
    requires t > 0.0
    ensures (a + b) / t == a / t + b / t
  {
  }

  /** The first `n` rows add up to the first `n` issuers' groups. */
  lemma {:induction false} PrefixSums(etfs: seq<Etf>, n: nat)
    requires n <= |AllRows(etfs)|
    ensures var ks := DistinctKeys(etfs, IssuerOf);
            && CountSum(AllRows(etfs)[..n]) == CountOver(etfs, IssuerOf, ks[..n])
            && AumSum(AllRows(etfs)[..n]) == SumOver(etfs, IssuerOf, ks[..n], AumOf)
  {
    var ks := DistinctKeys(etfs, IssuerOf);
    var all := AllRows(etfs);
    if n > 0 {
      PrefixSums(etfs, n - 1);
      assert all[..n][..n - 1] == all[..n - 1];
      assert ks[..n][..n - 1] == ks[..n - 1];
      assert all[..n][n - 1] == all[n - 1];
      assert ks[..n][n - 1] == ks[n - 1];
    }
  }

  /** With a positive total, the first `n` shares add up to the first `n` issuers' AUM over the total. */
  lemma {:induction false} PrefixShares(etfs: seq<Etf>, n: nat)
    requires n <= |AllRows(etfs)| && SumAll(etfs, AumOf) > 0.0
    ensures ShareSum(AllRows(etfs)[..n]) == AumSum(AllRows(etfs)[..n]) / SumAll(etfs, AumOf)
  {
    var all := AllRows(etfs);
    var t := SumAll(etfs, AumOf);
    if n > 0 {
      PrefixShares(etfs, n - 1);
      var p := all[..n];
      assert p[..n - 1] == all[..n - 1];
      assert p[n - 1].marketShare == p[n - 1].totalAum / t;
      SplitQuotient(AumSum(p[..n - 1]), p[n - 1].totalAum, t);
    }
  }

  lemma SelfQuotient(t: real)
    requires t > 0.0
    ensures t / t == 1.0
  {
  }

  /**
   * Every fund is counted under exactly one issuer, the issuers' AUM adds up
   * to the universe's, and with a positive total the shares add up to one.
   */
  lemma IssuersCoverUniverse(etfs: seq<Etf>)
    ensures CountSum(AllRows(etfs)) == |etfs|
    ensures AumSum(AllRows(etfs)) == SumAll(etfs, AumOf)
    ensures SumAll(etfs, AumOf) > 0.0 ==> ShareSum(AllRows(etfs)) == 1.0
  {
    IssuerTotals(etfs);
    if SumAll(etfs, AumOf) > 0.0 {
      SharesAddUp(etfs);
    }
  }

  /** With a positive total, the market shares of all the issuers add up to one. */
  lemma SharesAddUp(etfs: seq<Etf>)
    requires SumAll(etfs, AumOf) > 0.0
    ensures ShareSum(AllRows(etfs)) == 1.0
  {
    var all := AllRows(etfs);
    var t := SumAll(etfs, AumOf);
    IssuerTotals(etfs);
    PrefixShares(etfs, |all|);
    assert all[..|all|] == all;
    assert ShareSum(all) == AumSum(all) / t;
    SelfQuotient(t);
  }

  /** The rows' counts and AUM add up to the universe's. */
  lemma IssuerTotals(etfs: seq<Etf>)
    ensures CountSum(AllRows(etfs)) == |etfs|
    ensures AumSum(AllRows(etfs)) == SumAll(etfs, AumOf)
  {
    var ks := DistinctKeys(etfs, IssuerOf);
    var all := AllRows(etfs);
    PrefixSums(etfs, |all|);
    assert all[..|all|] == all;
    assert ks[..|ks|] == ks;
    SumOverDistinctKeys(etfs, IssuerOf, AumOf);
  }
}
