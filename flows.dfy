/**
 * GET /api/flows: per-category fund-flow estimates.  Live AUM is compared
 * with the curated baseline and the part explained by the day's average
 * price move is stripped out; the remainder is an estimated daily flow,
 * scaled to a week (x5) and a month (x4 weeks).
 */
module Flows {
  import opened Wrappers
  import opened Sorting
  import opened Groups
  import opened Quotes
  import opened EtfData
  import EtfsRoute

  /** The running totals kept per category. */
  datatype Acc = Acc(seedAum: real, liveAum: real, pricePctSum: real, count: nat)

  datatype FlowEntry = FlowEntry(category: string, weeklyFlow: real, monthlyFlow: real, totalAum: real, etfCount: nat)

  function CategoryOf(e: Etf): string { e.category }

  function SeedAum(e: Etf): real { e.aum }

  /** The live AUM of a fund: a credible quoted market cap, else the baseline. */
  function LiveAum(qm: map<string, Quote>): Etf -> real {
    (e: Etf) => ResolveAum(e.aum, Lookup(qm, e.ticker), EtfsRoute.AUM_FLOOR)
  }

  /** The day's percentage price change of a fund, 0 when unquoted (`?? 0`). */
  function PricePct(qm: map<string, Quote>): Etf -> real {
    (e: Etf) => if e.ticker in qm then qm[e.ticker].changePct.GetOr(0.0) else 0.0
  }

  /** The totals the handler's loop accumulates for category `k`, specified directly. */
  function AccOf(seeds: seq<Etf>, qm: map<string, Quote>, k: string): Acc {
    Acc(SumWhere(seeds, CategoryOf, k, SeedAum),
        SumWhere(seeds, CategoryOf, k, LiveAum(qm)),
        SumWhere(seeds, CategoryOf, k, PricePct(qm)),
        CountWhere(seeds, CategoryOf, k))
  }

  /** Adding one fund's figures to a category's totals. */
  function AddFund(d: Acc, qm: map<string, Quote>, e: Etf): Acc {
    Acc(d.seedAum + e.aum, d.liveAum + LiveAum(qm)(e), d.pricePctSum + PricePct(qm)(e), d.count + 1)
  }

  /** One more fund updates its own category's totals and leaves the others alone. */
  lemma AccOfSnoc(s: seq<Etf>, qm: map<string, Quote>, e: Etf, k: string)
    ensures AccOf(s + [e], qm, k) == if e.category == k then AddFund(AccOf(s, qm, k), qm, e) else AccOf(s, qm, k)
  {
    assert (s + [e])[..|s|] == s;
  }

  lemma DistinctKeysSnoc(s: seq<Etf>, e: Etf)
    ensures DistinctKeys(s + [e], CategoryOf) ==
              if e.category in DistinctKeys(s, CategoryOf) then DistinctKeys(s, CategoryOf)
              else DistinctKeys(s, CategoryOf) + [e.category]
  {
    assert (s + [e])[..|s|] == s;
  }

  /** The loop's invariant: `keys` and `acc` hold the categories and totals of the funds `s` seen so far. */
  ghost predicate Aggregated(s: seq<Etf>, qm: map<string, Quote>, keys: seq<string>, acc: map<string, Acc>) {
    && keys == DistinctKeys(s, CategoryOf)
    && (forall k :: k in acc <==> k in keys)
    && (forall k :: k in acc ==> acc[k] == AccOf(s, qm, k))
  }

  /** A category none of the funds `s` belongs to has zero totals. */
  lemma FreshCategory(s: seq<Etf>, qm: map<string, Quote>, k: string)
    requires forall j :: 0 <= j < |s| ==> s[j].category != k
    ensures AccOf(s, qm, k) == Acc(0.0, 0.0, 0.0, 0)
  {
    assert forall j :: 0 <= j < |s| ==> CategoryOf(s[j]) != k;
    SumWhereAbsent(s, CategoryOf, k, SeedAum);
    SumWhereAbsent(s, CategoryOf, k, LiveAum(qm));
    SumWhereAbsent(s, CategoryOf, k, PricePct(qm));
  }

  /** Adding the fund to its category's running totals keeps every entry equal to its category's sums. */
  lemma StepValues(s: seq<Etf>, qm: map<string, Quote>, e: Etf, acc: map<string, Acc>, start: Acc, acc2: map<string, Acc>)
    requires forall k :: k in acc ==> acc[k] == AccOf(s, qm, k)
    requires start == AccOf(s, qm, e.category)
    requires acc2 == acc[e.category := AddFund(start, qm, e)]
    ensures forall k :: k in acc2 ==> acc2[k] == AccOf(s + [e], qm, k)
  {
    forall k | k in acc2 ensures acc2[k] == AccOf(s + [e], qm, k) {
      AccOfSnoc(s, qm, e, k);
    }
  }

  /** The keys grow by the fund's category exactly when it is new. */
  lemma StepKeys(s: seq<Etf>, e: Etf, keys: seq<string>, acc: set<string>, keys1: seq<string>, acc2: set<string>)
    requires keys == DistinctKeys(s, CategoryOf)
    requires forall k :: k in acc <==> k in keys
    requires keys1 == if e.category in acc then keys else keys + [e.category]
    requires acc2 == acc + {e.category}
    ensures keys1 == DistinctKeys(s + [e], CategoryOf)
    ensures forall k :: k in acc2 <==> k in keys1
  {
    DistinctKeysSnoc(s, e);
  }

  /**
   * The aggregation loop: one dictionary entry per category, created on the
   * category's first fund and updated by every fund of it.
   */
  method Aggregate(seeds: seq<Etf>, qm: map<string, Quote>) returns (keys: seq<string>, acc: map<string, Acc>)
    ensures keys == DistinctKeys(seeds, CategoryOf)
    ensures forall k :: k in acc <==> k in keys
    ensures forall k :: k in acc ==> acc[k] == AccOf(seeds, qm, k)
  {
    keys, acc := [], map[];
    for i := 0 to |seeds|
      invariant Aggregated(seeds[..i], qm, keys, acc)
    {
      assert seeds[..i + 1] == seeds[..i] + [seeds[i]];
      keys, acc := AddToCategory(seeds[..i], qm, seeds[i], keys, acc);
    }
    assert seeds[..|seeds|] == seeds;
  }

  /** One loop iteration keeps the invariant, given the category's totals before the fund. */
  lemma AggregateStep(s: seq<Etf>, qm: map<string, Quote>, e: Etf, keys: seq<string>, acc: map<string, Acc>,
                      start: Acc, keys': seq<string>, acc': map<string, Acc>)
    requires Aggregated(s, qm, keys, acc)
    requires start == AccOf(s, qm, e.category)
    requires keys' == if e.category in acc then keys else keys + [e.category]
    requires acc' == acc[e.category := AddFund(start, qm, e)]
    ensures Aggregated(s + [e], qm, keys', acc')
  {
    StepValues(s, qm, e, acc, start, acc');
    StepKeys(s, e, keys, acc.Keys, keys', acc'.Keys);
  }

  /** The loop body: create the category's entry on its first fund, then add the fund's figures. */
  method AddToCategory(s: seq<Etf>, qm: map<string, Quote>, e: Etf, keys: seq<string>, acc: map<string, Acc>)
    returns (keys': seq<string>, acc': map<string, Acc>)
    requires Aggregated(s, qm, keys, acc)
    ensures Aggregated(s + [e], qm, keys', acc')
  {
    var k := e.category;
    keys', acc' := keys, acc;
    if k !in acc' {
      FreshCategory(s, qm, k);
      acc' := acc'[k := Acc(0.0, 0.0, 0.0, 0)];
      keys' := keys' + [k];
    }
    var start := acc'[k];
    acc' := acc'[k := AddFund(start, qm, e)];
    assert acc' == acc[k := AddFund(start, qm, e)];
    AggregateStep(s, qm, e, keys, acc, start, keys', acc');
  }

  /** The flow estimate of one category from its totals. */
  function FlowOf(category: string, d: Acc): (f: FlowEntry)
    ensures f.category == category && f.totalAum == d.liveAum && f.etfCount == d.count
    ensures f.monthlyFlow == 4.0 * f.weeklyFlow
  {
    var aumDelta := d.liveAum - d.seedAum;
    var avgPricePct := if d.count > 0 then d.pricePctSum / (d.count as real) / 100.0 else 0.0;
    var priceReturnContrib := d.seedAum * avgPricePct;
    var dailyFlow := aumDelta - priceReturnContrib;
    var weeklyFlow := dailyFlow * 5.0;
    FlowEntry(category, weeklyFlow, weeklyFlow * 4.0, d.liveAum, d.count)
  }

  /** AUM growth fully explained by the average price move is no flow at all. */
  lemma PriceMoveIsNoFlow(category: string, d: Acc)
    requires d.count > 0
    requires d.liveAum == d.seedAum * (1.0 + d.pricePctSum / (d.count as real) / 100.0)
    ensures FlowOf(category, d).weeklyFlow == 0.0 && FlowOf(category, d).monthlyFlow == 0.0
  {
  }

  /** The weekly estimate is five days of (AUM change minus price-return contribution). */
  lemma WeeklyFlowMeaning(category: string, d: Acc)
    requires d.count > 0
    ensures FlowOf(category, d).weeklyFlow ==
              5.0 * ((d.liveAum - d.seedAum) - d.seedAum * (d.pricePctSum / (d.count as real) / 100.0))
  {
  }

  /** One entry per category, in order of first appearance. */
  function FlowsFor(seeds: seq<Etf>, qm: map<string, Quote>, ks: seq<string>): (fs: seq<FlowEntry>)
    ensures |fs| == |ks|
    ensures forall i :: 0 <= i < |ks| ==> fs[i] == FlowOf(ks[i], AccOf(seeds, qm, ks[i]))
  {
    if ks == [] then []
    else FlowsFor(seeds, qm, ks[..|ks| - 1]) + [FlowOf(ks[|ks| - 1], AccOf(seeds, qm, ks[|ks| - 1]))]
  }

  function AbsWeekly(f: FlowEntry): real {
    if f.weeklyFlow >= 0.0 then f.weeklyFlow else -f.weeklyFlow
  }

  function EtfCountSum(fs: seq<FlowEntry>): nat {
    if fs == [] then 0 else EtfCountSum(fs[..|fs| - 1]) + fs[|fs| - 1].etfCount
  }

  function TotalAumSum(fs: seq<FlowEntry>): real {
    if fs == [] then 0.0 else TotalAumSum(fs[..|fs| - 1]) + fs[|fs| - 1].totalAum
  }

  lemma {:induction false} FlowsForSums(seeds: seq<Etf>, qm: map<string, Quote>, ks: seq<string>)
    ensures EtfCountSum(FlowsFor(seeds, qm, ks)) == CountOver(seeds, CategoryOf, ks)
    ensures TotalAumSum(FlowsFor(seeds, qm, ks)) == SumOver(seeds, CategoryOf, ks, LiveAum(qm))
  {
    if ks != [] {
      var fs := FlowsFor(seeds, qm, ks);
      FlowsForSums(seeds, qm, ks[..|ks| - 1]);
      assert fs[..|fs| - 1] == FlowsFor(seeds, qm, ks[..|ks| - 1]);
    }
  }

  /** Every curated fund is counted in exactly one category, and the category AUMs add up to the live total. */
  lemma FlowsCoverUniverse(seeds: seq<Etf>, qm: map<string, Quote>)
    ensures EtfCountSum(FlowsFor(seeds, qm, DistinctKeys(seeds, CategoryOf))) == |seeds|
    ensures TotalAumSum(FlowsFor(seeds, qm, DistinctKeys(seeds, CategoryOf))) == SumAll(seeds, LiveAum(qm))
  {
    FlowsForSums(seeds, qm, DistinctKeys(seeds, CategoryOf));
    SumOverDistinctKeys(seeds, CategoryOf, LiveAum(qm));
  }

  /** With no quotes at all, every category shows zero flow. */
  lemma NoQuotesNoFlow(seeds: seq<Etf>, k: string)
    requires k in DistinctKeys(seeds, CategoryOf)
    ensures FlowOf(k, AccOf(seeds, map[], k)).weeklyFlow == 0.0
  {
    SumWhereAgree(seeds, CategoryOf, k, LiveAum(map[]), SeedAum);
    SumWhereZero(seeds, CategoryOf, k, PricePct(map[]));
  }

  /**
   * The handler: the category entries ordered by the size of the weekly flow,
   * largest first, whichever its sign.
   */
  method Get(seeds: seq<Etf>, fetch: seq<string> -> Response) returns (data: seq<FlowEntry>)
    ensures data == Sort(FlowsFor(seeds, EtfsRoute.QuoteMapFor(AllTickers(seeds), fetch), DistinctKeys(seeds, CategoryOf)),
                         Desc(AbsWeekly))
    ensures forall i, j :: 0 <= i < j < |data| ==> AbsWeekly(data[i]) >= AbsWeekly(data[j])
    ensures |data| == |DistinctKeys(seeds, CategoryOf)|
  {
    var quoteMap := EtfsRoute.FetchQuoteMap(AllTickers(seeds), fetch);
    var keys, acc := Aggregate(seeds, quoteMap);
    var flows := seq(|keys|, i requires 0 <= i < |keys| => FlowOf(keys[i], acc[keys[i]]));
    FlowsFromTotals(seeds, quoteMap, keys, acc);
    data := Sort(flows, Desc(AbsWeekly));
    SortedDesc(flows, AbsWeekly);
  }

  /** The `map` over the dictionary's entries gives the specified flows. */
  lemma FlowsFromTotals(seeds: seq<Etf>, qm: map<string, Quote>, keys: seq<string>, acc: map<string, Acc>)
    requires forall k :: k in keys ==> k in acc && acc[k] == AccOf(seeds, qm, k)
    ensures seq(|keys|, i requires 0 <= i < |keys| => FlowOf(keys[i], acc[keys[i]])) == FlowsFor(seeds, qm, keys)
  {
    var flows := seq(|keys|, i requires 0 <= i < |keys| => FlowOf(keys[i], acc[keys[i]]));
    var spec := FlowsFor(seeds, qm, keys);
    forall i | 0 <= i < |keys| ensures flows[i] == spec[i] {
      assert keys[i] in keys;
    }
  }
}
