/**
 * GET /api/movers: the five best and five worst daily performers of the
 * curated universe, from one quote request per host (query2, then query1).
 */
module Movers {
  import opened Wrappers
  import opened Sorting
  import opened Quotes
  import opened EtfData

  datatype Mover = Mover(ticker: string, name: string, changePct: real, price: real, category: string)

  const MOVERS_SHOWN := 5

  /** `SEED_ETFS.find(e => e.ticker === symbol)`: the first seed with that ticker. */
  function SeedFor(seeds: seq<Etf>, symbol: string): (r: Option<Etf>)
    ensures r.None? <==> forall i :: 0 <= i < |seeds| ==> seeds[i].ticker != symbol
    ensures r.Some? ==> exists i :: 0 <= i < |seeds| && seeds[i] == r.value && r.value.ticker == symbol
                          && forall j :: 0 <= j < i ==> seeds[j].ticker != symbol
  {
    if seeds == [] then None
    else if seeds[0].ticker == symbol then Some(seeds[0])
    else
      var r := SeedFor(seeds[1..], symbol);
      assert forall j :: 1 <= j < |seeds| ==> seeds[j] == seeds[1..][j - 1];
      r
  }

  /** A quote can rank when it carries both a change percentage and a price. */
  predicate Ranked(q: Quote) { q.changePct.Some? && q.price.Some? }

  function ToMover(seeds: seq<Etf>, q: Quote): (m: Mover)
    requires Ranked(q)
    ensures m.ticker == q.symbol && m.changePct == q.changePct.value && m.price == q.price.value
  {
    var seed := SeedFor(seeds, q.symbol);
    Mover(q.symbol,
          if seed.Some? then seed.value.name else q.symbol,
          q.changePct.value,
          q.price.value,
          if seed.Some? then seed.value.category else "Unknown")
  }

  /** The rankable quotes as movers, in response order. */
  function MoversOf(seeds: seq<Etf>, quotes: seq<Quote>): (ms: seq<Mover>)
    ensures |ms| <= |quotes|
  {
    if quotes == [] then []
    else (if Ranked(quotes[0]) then [ToMover(seeds, quotes[0])] else []) + MoversOf(seeds, quotes[1..])
  }

  function ChangeOf(m: Mover): real { m.changePct }

  datatype MoversData = MoversData(gainers: seq<Mover>, losers: seq<Mover>)

  /** Best five by descending change, and the last five of that order reversed (worst first). */
  function Split(ranked: seq<Mover>): MoversData {
    MoversData(SliceTo(ranked, MOVERS_SHOWN), Reverse(LastN(ranked, MOVERS_SHOWN)))
  }

  /**
   * The handler: the first non-empty host answer, ranked by change, split into
   * gainers (best first) and losers (worst first).
   */
  method Get(seeds: seq<Etf>, query2: Response, query1: Response) returns (data: MoversData)
    ensures data == Split(Sort(MoversOf(seeds, FirstNonEmpty([query2, query1])), Desc(ChangeOf)))
    ensures |data.gainers| <= MOVERS_SHOWN && |data.losers| <= MOVERS_SHOWN
    ensures forall i, j :: 0 <= i < j < |data.gainers| ==> data.gainers[i].changePct >= data.gainers[j].changePct
    ensures forall i, j :: 0 <= i < j < |data.losers| ==> data.losers[i].changePct <= data.losers[j].changePct
  {
    var quotes := TryHosts([query2, query1]);
    var movers := MoversOf(seeds, quotes);
    var ranked := Sort(movers, Desc(ChangeOf));
    SortedDesc(movers, ChangeOf);
    SplitOrdered(ranked);
    data := Split(ranked);
  }

  /** Of a descending ranking, the gainers stay descending and the losers come out ascending. */
  lemma SplitOrdered(ranked: seq<Mover>)
    requires forall i, j :: 0 <= i < j < |ranked| ==> ranked[i].changePct >= ranked[j].changePct
    ensures var d := Split(ranked);
            && |d.gainers| <= MOVERS_SHOWN && |d.losers| <= MOVERS_SHOWN
            && (forall i, j :: 0 <= i < j < |d.gainers| ==> d.gainers[i].changePct >= d.gainers[j].changePct)
            && (forall i, j :: 0 <= i < j < |d.losers| ==> d.losers[i].changePct <= d.losers[j].changePct)
  {
    assert DescendingBy(ranked, ChangeOf);
    DescendingPrefix(ranked, ChangeOf, MOVERS_SHOWN);
    DescendingTailReversed(ranked, ChangeOf, MOVERS_SHOWN);
  }

  /** With at least ten movers, every gainer did at least as well as every loser, and the two lists are disjoint slices. */
  lemma GainersAboveLosers(ranked: seq<Mover>)
    requires |ranked| >= 2 * MOVERS_SHOWN
    requires forall i, j :: 0 <= i < j < |ranked| ==> ranked[i].changePct >= ranked[j].changePct
    ensures var d := Split(ranked);
            forall g, l :: 0 <= g < |d.gainers| && 0 <= l < |d.losers| ==> d.gainers[g].changePct >= d.losers[l].changePct
    ensures var d := Split(ranked);
            d.gainers == ranked[..MOVERS_SHOWN] && d.losers == Reverse(ranked[|ranked| - MOVERS_SHOWN..])
  {
    var d := Split(ranked);
    forall g, l | 0 <= g < |d.gainers| && 0 <= l < |d.losers|
      ensures d.gainers[g].changePct >= d.losers[l].changePct
    {
      assert d.gainers[g] == ranked[g];
      assert d.losers[l] == ranked[|ranked| - 1 - l];
    }
  }
}
