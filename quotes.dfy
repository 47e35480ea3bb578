/**
 * The Yahoo Finance quote record, a single quote request's outcome, the
 * symbol-keyed quote dictionary built from it, the merge of per-chunk
 * dictionaries (`Object.assign`) and the query2 -> query1 host fallback.
 */
module Quotes {
  import opened Wrappers

  /** The fields of a quote the system reads; absent fields are `None`. */
  datatype Quote = Quote(
    symbol: string,
    price: Option<real>,          // regularMarketPrice
    change: Option<real>,         // regularMarketChange
    changePct: Option<real>,      // regularMarketChangePercent
    volume: Option<real>,         // regularMarketVolume
    marketCap: Option<real>,
    shortName: Option<string>,
    longName: Option<string>,
    quoteType: Option<string>,
    category: Option<string>,
    exchange: Option<string>,
    fullExchangeName: Option<string>,
    netExpenseRatio: Option<real>)

  /** How one quote request ended. `Answered` carries `quoteResponse.result ?? []`. */
  datatype Response = Threw | NotOk | Answered(result: seq<Quote>)

  /** JavaScript truthiness of an optional number: present and non-zero. */
  predicate Truthy(x: Option<real>) { x.Some? && x.value != 0.0 }

  /** JavaScript truthiness of an optional string: present and non-empty. */
  predicate TruthyStr(x: Option<string>) { x.Some? && x.value != "" }

  /** `a || b` on optional strings. */
  function OrStr(a: Option<string>, b: string): (r: string)
    ensures TruthyStr(a) ==> r == a.value
    ensures !TruthyStr(a) ==> r == b
  {
    if TruthyStr(a) then a.value else b
  }

  /** `Object.fromEntries(quotes.map(q => [q.symbol, q]))`: a later quote for the same symbol wins. */
  function QuoteMapOf(quotes: seq<Quote>): (m: map<string, Quote>)
    ensures forall i :: 0 <= i < |quotes| ==> quotes[i].symbol in m
    ensures forall k :: k in m ==> m[k].symbol == k && m[k] in quotes
  {
    if quotes == [] then map[]
    else
      var p := quotes[..|quotes| - 1];
      var last := quotes[|quotes| - 1];
      var m0 := QuoteMapOf(p);
      assert forall i :: 0 <= i < |p| ==> p[i] == quotes[i];
      m0[last.symbol := last]
  }

  /** For a repeated symbol the dictionary holds its last quote, found at index `i`. */
  lemma {:induction false} QuoteMapOfLast(quotes: seq<Quote>, k: string) returns (i: nat)
    requires k in QuoteMapOf(quotes)
    ensures i < |quotes| && quotes[i] == QuoteMapOf(quotes)[k]
    ensures forall j :: i < j < |quotes| ==> quotes[j].symbol != k
  {
    var p := quotes[..|quotes| - 1];
    var last := quotes[|quotes| - 1];
    var m0 := QuoteMapOf(p);
    assert QuoteMapOf(quotes) == m0[last.symbol := last];
    if last.symbol != k {
      assert k in m0 && QuoteMapOf(quotes)[k] == m0[k];
      i := QuoteMapOfLast(p, k);
      assert quotes[i] == p[i];
      LaterMiss(quotes, p, i, k);
    } else {
      i := |quotes| - 1;
    }
  }

  /** No quote after `i` has symbol `k` when none in the prefix does and the last one does not either. */
  lemma LaterMiss(quotes: seq<Quote>, p: seq<Quote>, i: nat, k: string)
    requires quotes != [] && p == quotes[..|quotes| - 1] && i < |p|
    requires forall j :: i < j < |p| ==> p[j].symbol != k
    requires quotes[|quotes| - 1].symbol != k
    ensures forall j :: i < j < |quotes| ==> quotes[j].symbol != k
  {
    forall j | i < j < |quotes| ensures quotes[j].symbol != k {
      if j < |quotes| - 1 {
        assert quotes[j] == p[j];
      }
    }
  }

  /** The dictionary one request contributes: empty unless the request succeeded. */
  function MapOfResponse(r: Response): (m: map<string, Quote>)
    ensures !r.Answered? ==> m == map[]
    ensures r.Answered? ==> forall k :: k in m <==> exists i :: 0 <= i < |r.result| && r.result[i].symbol == k
  {
    match r
    case Answered(qs) => QuoteMapOf(qs)
    case _ => map[]
  }

  /** `Object.assign({}, ...maps)`, specified: a later map overrides earlier ones key by key. */
  function Merged(maps: seq<map<string, Quote>>): map<string, Quote> {
    if maps == [] then map[] else Merged(maps[..|maps| - 1]) + maps[|maps| - 1]
  }

  /** A key is merged exactly when some map has it, and takes the value of the last such map. */
  lemma {:induction false} MergedLookup(maps: seq<map<string, Quote>>, k: string)
    ensures k in Merged(maps) <==> exists i :: 0 <= i < |maps| && k in maps[i]
    ensures k in Merged(maps) ==> exists i ::
              && 0 <= i < |maps| && k in maps[i] && Merged(maps)[k] == maps[i][k]
              && forall j :: i < j < |maps| ==> k !in maps[j]
  {
    if maps != [] {
      var p := maps[..|maps| - 1];
      MergedLookup(p, k);
      assert forall i :: 0 <= i < |p| ==> p[i] == maps[i];
    }
  }

  /** The merge as the source performs it, one dictionary at a time. */
  method MergeQuoteMaps(maps: seq<map<string, Quote>>) returns (m: map<string, Quote>)
    ensures m == Merged(maps)
    ensures forall k :: k in m <==> exists i :: 0 <= i < |maps| && k in maps[i]
  {
    m := map[];
    for i := 0 to |maps|
      invariant m == Merged(maps[..i])
    {
      assert maps[..i + 1][..i] == maps[..i];
      m := m + maps[i];
    }
    assert maps[..|maps|] == maps;
    forall k ensures k in m <==> exists i :: 0 <= i < |maps| && k in maps[i] {
      MergedLookup(maps, k);
    }
  }

  /**
   * The host fallback: the first response, in host order, that succeeded with
   * a non-empty result; otherwise no quotes at all.
   */
  function FirstNonEmpty(responses: seq<Response>): seq<Quote> {
    if responses == [] then []
    else if responses[0].Answered? && |responses[0].result| > 0 then responses[0].result
    else FirstNonEmpty(responses[1..])
  }

  /** Quotes come from the earliest host that returned some, and no earlier host did. */
  lemma {:induction false} FirstNonEmptyChoice(responses: seq<Response>)
    ensures FirstNonEmpty(responses) == [] <==>
              forall i :: 0 <= i < |responses| ==> !(responses[i].Answered? && |responses[i].result| > 0)
    ensures FirstNonEmpty(responses) != [] ==>
              exists i ::
                && 0 <= i < |responses| && responses[i] == Answered(FirstNonEmpty(responses))
                && forall j :: 0 <= j < i ==> !(responses[j].Answered? && |responses[j].result| > 0)
  {
    if responses != [] && !(responses[0].Answered? && |responses[0].result| > 0) {
      var rest := responses[1..];
      FirstNonEmptyChoice(rest);
      if FirstNonEmpty(rest) != [] {
        var i :| 0 <= i < |rest| && rest[i] == Answered(FirstNonEmpty(rest))
                && forall j :: 0 <= j < i ==> !(rest[j].Answered? && |rest[j].result| > 0);
        assert responses[i + 1] == rest[i];
        assert forall j :: 1 <= j < i + 1 ==> responses[j] == rest[j - 1];
      }
      assert forall i :: 1 <= i < |responses| ==> responses[i] == rest[i - 1];
    }
  }

  /** The fallback loop: try each host, skip failures and empty answers, stop at the first quotes. */
  method TryHosts(responses: seq<Response>) returns (quotes: seq<Quote>)
    ensures quotes == FirstNonEmpty(responses)
  {
    quotes := [];
    var i := 0;
    while i < |responses|
      invariant 0 <= i <= |responses|
      invariant FirstNonEmpty(responses) == FirstNonEmpty(responses[i..])
    {
      var r := responses[i];
      assert responses[i..][1..] == responses[i + 1..];
      if !r.Answered? {
        i := i + 1;
        continue;
      }
      if |r.result| > 0 {
        quotes := r.result;
        return;
      }
      i := i + 1;
    }
  }

  /**
   * The AUM shown for a fund: the quote's market cap when present and above
   * `floor`, otherwise the baseline.
   */
  function ResolveAum(baseline: real, q: Option<Quote>, floor: real): (aum: real)
    requires floor >= 0.0
    ensures q.Some? && q.value.marketCap.Some? && q.value.marketCap.value > floor ==> aum == q.value.marketCap.value
    ensures !(q.Some? && q.value.marketCap.Some? && q.value.marketCap.value > floor) ==> aum == baseline
  {
    if q.Some? && Truthy(q.value.marketCap) && q.value.marketCap.value > floor then q.value.marketCap.value
    else baseline
  }

  /** Looking a ticker up in the quote dictionary (`quoteMap[ticker]`). */
  function Lookup(m: map<string, Quote>, ticker: string): Option<Quote> {
    if ticker in m then Some(m[ticker]) else None
  }
}
