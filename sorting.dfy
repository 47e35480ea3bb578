/**
 * `Array.prototype.sort` with a comparator, and `slice`.  ECMAScript requires
 * the sort to be stable; it is modelled as a stable insertion sort over an
 * ordering predicate `le` ("may come first").  A descending sort on a numeric
 * key is `le(a, b) == key(a) >= key(b)`.  Also the order-keeping list
 * operations around sorts: `filter`, keep-and-map, prefixes and reversal.
 */
module Sorting {
  import opened Wrappers

  ghost predicate Total<T(!new)>(le: (T, T) -> bool) {
    forall a, b :: le(a, b) || le(b, a)
  }

  ghost predicate Transitive<T(!new)>(le: (T, T) -> bool) {
    forall a, b, c :: le(a, b) && le(b, c) ==> le(a, c)
  }

  ghost predicate TotalPreorder<T(!new)>(le: (T, T) -> bool) {
    Total(le) && Transitive(le)
  }

  ghost predicate Sorted<T>(s: seq<T>, le: (T, T) -> bool) {
    forall i, j :: 0 <= i < j < |s| ==> le(s[i], s[j])
  }

  /** The comparator `(a, b) => key(b) - key(a)`: larger keys first. */
  function Desc<T>(key: T -> real): (T, T) -> bool {
    (a: T, b: T) => key(a) >= key(b)
  }

  /** The comparator `(a, b) => key(a) - key(b)`: smaller keys first. */
  function Asc<T>(key: T -> real): (T, T) -> bool {
    (a: T, b: T) => key(a) <= key(b)
  }

  lemma DescIsTotalPreorder<T(!new)>(key: T -> real)
    ensures TotalPreorder(Desc(key))
  {
  }

  lemma AscIsTotalPreorder<T(!new)>(key: T -> real)
    ensures TotalPreorder(Asc(key))
  {
  }

  /** Places `x` before the first element it may precede. */
  function Insert<T>(x: T, s: seq<T>, le: (T, T) -> bool): (r: seq<T>)
    ensures multiset(r) == multiset(s) + multiset{x}
    ensures |r| == |s| + 1
  {
    if s == [] then [x]
    else if le(x, s[0]) then [x] + s
    else
      assert s == [s[0]] + s[1..];
      [s[0]] + Insert(x, s[1..], le)
  }

  /** The stable sort: the elements of `s` rearranged. */
  function Sort<T>(s: seq<T>, le: (T, T) -> bool): (r: seq<T>)
    ensures multiset(r) == multiset(s)
    ensures |r| == |s|
  {
    if s == [] then []
    else
      assert s == [s[0]] + s[1..];
      Insert(s[0], Sort(s[1..], le), le)
  }

  lemma {:induction false} InsertSorted<T(!new)>(x: T, s: seq<T>, le: (T, T) -> bool)
    requires TotalPreorder(le) && Sorted(s, le)
    ensures Sorted(Insert(x, s, le), le)
  {
    if s != [] && !le(x, s[0]) {
      InsertSorted(x, s[1..], le);
      var r := Insert(x, s, le);
      var tail := Insert(x, s[1..], le);
      assert r == [s[0]] + tail;
      assert le(s[0], x);
      forall k | 0 <= k < |tail|
        ensures le(s[0], tail[k])
      {
        assert tail[k] in multiset(tail);
        assert tail[k] in multiset(s[1..]) + multiset{x};
        if tail[k] != x {
          assert tail[k] in s[1..];
          var m :| 0 <= m < |s[1..]| && s[1..][m] == tail[k];
          assert s[m + 1] == tail[k];
        }
      }
    }
  }

  /** The stable sort orders its result whenever `le` is a total preorder. */
  lemma {:induction false} SortSorted<T(!new)>(s: seq<T>, le: (T, T) -> bool)
    requires TotalPreorder(le)
    ensures Sorted(Sort(s, le), le)
  {
    if s != [] {
      SortSorted(s[1..], le);
      InsertSorted(s[0], Sort(s[1..], le), le);
    }
  }

  /** An already ordered sequence is left exactly as it is (a stable sort moves nothing). */
  lemma {:induction false} SortOfSorted<T>(s: seq<T>, le: (T, T) -> bool)
    requires Sorted(s, le)
    ensures Sort(s, le) == s
  {
    if s != [] {
      SortOfSorted(s[1..], le);
      if |s| > 1 {
        assert le(s[0], s[1]);
      }
    }
  }

  /** The elements `le` cannot tell apart from `a` (those tied with it). */
  function Ties<T>(le: (T, T) -> bool, a: T): T -> bool {
    (x: T) => le(x, a) && le(a, x)
  }

  /** Two ties of `a` may come in either order. */
  lemma TieAfter<T(!new)>(le: (T, T) -> bool, a: T, x: T, y: T)
    requires Transitive(le) && Ties(le, a)(x) && Ties(le, a)(y)
    ensures le(x, y)
  {
  }

  /**
   * Inserting `x` keeps the order of the elements that pass `p`: when `x`
   * passes and may precede each of them, it goes in front of them.
   */
  lemma {:induction false} InsertKept<T>(x: T, s: seq<T>, le: (T, T) -> bool, p: T -> bool)
    requires p(x) ==> forall i :: 0 <= i < |s| && p(s[i]) ==> le(x, s[i])
    ensures Kept(Insert(x, s, le), p) == (if p(x) then [x] else []) + Kept(s, p)
  {
    if s == [] {
    } else if le(x, s[0]) {
      assert ([x] + s)[1..] == s;
    } else {
      assert p(x) ==> !p(s[0]);
      InsertKept(x, s[1..], le, p);
      KeptPastHead(x, s, le, p);
    }
  }

  /** The step of `InsertKept` where `x` goes past the head of `s`. */
  lemma KeptPastHead<T>(x: T, s: seq<T>, le: (T, T) -> bool, p: T -> bool)
    requires s != [] && !le(x, s[0]) && (p(x) ==> !p(s[0]))
    requires Kept(Insert(x, s[1..], le), p) == (if p(x) then [x] else []) + Kept(s[1..], p)
    ensures Kept(Insert(x, s, le), p) == (if p(x) then [x] else []) + Kept(s, p)
  {
    var tail := Insert(x, s[1..], le);
    var r := [s[0]] + tail;
    assert Insert(x, s, le) == r;
    assert r[1..] == tail;
    var h0, hx := if p(s[0]) then [s[0]] else [], if p(x) then [x] else [];
    var k1 := Kept(s[1..], p);
    assert Kept(r, p) == h0 + (hx + k1);
    assert Kept(s, p) == h0 + k1;
    if p(x) {
      assert h0 == [] && hx == [x];
      assert Kept(s, p) == k1;
      assert Kept(r, p) == [x] + k1;
    } else {
      assert hx == [];
      assert hx + k1 == k1;
      assert Kept(r, p) == Kept(s, p);
      assert [] + Kept(s, p) == Kept(s, p);
    }
  }

  /** Inserting a tie of `a` that may precede the ties already in `s` puts it in front of them; any other element leaves them as they were. */
  lemma InsertTies<T>(x: T, s: seq<T>, le: (T, T) -> bool, a: T)
    requires Ties(le, a)(x) ==> forall y :: y in s && Ties(le, a)(y) ==> le(x, y)
    ensures Filter(Insert(x, s, le), Ties(le, a)) == (if Ties(le, a)(x) then [x] else []) + Filter(s, Ties(le, a))
  {
    if Ties(le, a)(x) {
      forall i | 0 <= i < |s| && Ties(le, a)(s[i]) ensures le(x, s[i]) {
        assert s[i] in s;
      }
    }
    InsertKept(x, s, le, Ties(le, a));
  }

  /** The sort is stable: on any input, the elements tied with `a` come out in the order they went in. */
  lemma {:induction false} SortStable<T(!new)>(s: seq<T>, le: (T, T) -> bool, a: T)
    requires Transitive(le)
    ensures Filter(Sort(s, le), Ties(le, a)) == Filter(s, Ties(le, a))
  {
    if s != [] {
      SortStable(s[1..], le, a);
      forall y | y in Sort(s[1..], le) && Ties(le, a)(y) && Ties(le, a)(s[0]) ensures le(s[0], y) {
        TieAfter(le, a, s[0], y);
      }
      InsertTies(s[0], Sort(s[1..], le), le, a);
    }
  }

  /** Sorting twice is sorting once. */
  lemma SortIdempotent<T(!new)>(s: seq<T>, le: (T, T) -> bool)
    requires TotalPreorder(le)
    ensures Sort(Sort(s, le), le) == Sort(s, le)
  {
    SortSorted(s, le);
    SortOfSorted(Sort(s, le), le);
  }

  /** The descending order on a key, spelled out. */
  lemma SortedDesc<T(!new)>(s: seq<T>, key: T -> real)
    ensures forall i, j :: 0 <= i < j < |Sort(s, Desc(key))| ==>
              key(Sort(s, Desc(key))[i]) >= key(Sort(s, Desc(key))[j])
  {
    DescIsTotalPreorder(key);
    SortSorted(s, Desc(key));
  }

  /** The ascending order on a key, spelled out. */
  lemma SortedAsc<T(!new)>(s: seq<T>, key: T -> real)
    ensures forall i, j :: 0 <= i < j < |Sort(s, Asc(key))| ==>
              key(Sort(s, Asc(key))[i]) <= key(Sort(s, Asc(key))[j])
  {
    AscIsTotalPreorder(key);
    SortSorted(s, Asc(key));
  }

  // ------------------------------------------------------------------ slicing

  /** JavaScript `s.slice(0, n)`: a negative `n` counts from the end. */
  function SliceTo<T>(s: seq<T>, n: int): (r: seq<T>)
    ensures r <= s
    ensures n >= 0 ==> |r| == if n <= |s| then n else |s|
    ensures n < 0 ==> |r| == if |s| + n >= 0 then |s| + n else 0
  {
    if n >= 0 then (if n <= |s| then s[..n] else s)
    else if |s| + n >= 0 then s[..|s| + n]
    else []
  }

  /** JavaScript `s.slice(-n)` for `n > 0`: the last `n` elements (all of them when fewer). */
  function LastN<T>(s: seq<T>, n: nat): (r: seq<T>)
    ensures |r| == if n <= |s| then n else |s|
    ensures r == s[|s| - |r|..]
  {
    if n <= |s| then s[|s| - n..] else s
  }

  function Reverse<T>(s: seq<T>): (r: seq<T>)
    ensures |r| == |s|
    ensures forall i :: 0 <= i < |s| ==> r[i] == s[|s| - 1 - i]
  {
    seq(|s|, i requires 0 <= i < |s| => s[|s| - 1 - i])
  }

  /** The elements of `s` satisfying `p`, in order: the definition behind `Filter`. */
  function Kept<T>(s: seq<T>, p: T -> bool): seq<T> {
    if s == [] then [] else (if p(s[0]) then [s[0]] else []) + Kept(s[1..], p)
  }

  /** `Kept` takes each element of `s` at most once. */
  lemma {:induction false} KeptSub<T>(s: seq<T>, p: T -> bool)
    ensures |Kept(s, p)| <= |s|
    ensures multiset(Kept(s, p)) <= multiset(s)
  {
    if s != [] {
      var rest := Kept(s[1..], p);
      var head := if p(s[0]) then [s[0]] else [];
      KeptSub(s[1..], p);
      assert s == [s[0]] + s[1..];
      assert multiset(s) == multiset([s[0]]) + multiset(s[1..]);
      assert multiset(head + rest) == multiset(head) + multiset(rest);
      assert multiset(head) <= multiset([s[0]]);
    }
  }

  /** `Kept` keeps the passing elements of `s`, and every one of them. */
  lemma {:induction false} KeptMembers<T>(s: seq<T>, p: T -> bool)
    ensures forall i :: 0 <= i < |Kept(s, p)| ==> p(Kept(s, p)[i]) && Kept(s, p)[i] in s
    ensures forall i :: 0 <= i < |s| && p(s[i]) ==> s[i] in Kept(s, p)
  {
    if s != [] {
      var rest := Kept(s[1..], p);
      var head := if p(s[0]) then [s[0]] else [];
      KeptMembers(s[1..], p);
      assert Kept(s, p) == head + rest;
      forall i | 0 <= i < |s| && p(s[i]) ensures s[i] in Kept(s, p) {
        if i > 0 {
          assert s[i] == s[1..][i - 1];
        }
      }
    }
  }

  /** Every element satisfying `p`, in order (`Array.prototype.filter`). */
  function Filter<T>(s: seq<T>, p: T -> bool): (r: seq<T>)
    ensures |r| <= |s|
    ensures forall i :: 0 <= i < |r| ==> p(r[i]) && r[i] in s
    ensures forall i :: 0 <= i < |s| && p(s[i]) ==> s[i] in r
    ensures multiset(r) <= multiset(s)
  {
    KeptSub(s, p);
    KeptMembers(s, p);
    Kept(s, p)
  }

  /** Keep-and-map, in order: the elements for which `f` gives a value. */
  function Collect<T, U>(xs: seq<T>, f: T -> Option<U>): (ys: seq<U>)
    ensures |ys| <= |xs|
  {
    if xs == [] then []
    else
      var front := Collect(xs[..|xs| - 1], f);
      var y := f(xs[|xs| - 1]);
      if y.Some? then front + [y.value] else front
  }

  lemma CollectSnoc<T, U>(xs: seq<T>, f: T -> Option<U>, i: nat)
    requires i < |xs|
    ensures Collect(xs[..i + 1], f) == Collect(xs[..i], f) + (if f(xs[i]).Some? then [f(xs[i]).value] else [])
  {
    assert xs[..i + 1][..i] == xs[..i];
  }

  /** An element is collected exactly when some input maps to it. */
  lemma {:induction false} CollectMeaning<T, U>(xs: seq<T>, f: T -> Option<U>)
    ensures forall y :: y in Collect(xs, f) <==> exists i :: 0 <= i < |xs| && f(xs[i]) == Some(y)
  {
    if xs != [] {
      var front := xs[..|xs| - 1];
      CollectMeaning(front, f);
      assert forall i :: 0 <= i < |front| ==> front[i] == xs[i];
    }
  }

  /** Reading fewer inputs collects a prefix of the outputs. */
  lemma {:induction false} CollectPrefix<T, U>(xs: seq<T>, f: T -> Option<U>, i: nat)
    requires i <= |xs|
    ensures Collect(xs[..i], f) <= Collect(xs, f)
    decreases |xs|
  {
    if i < |xs| {
      var front := xs[..|xs| - 1];
      CollectPrefix(front, f, i);
      assert front[..i] == xs[..i];
    } else {
      assert xs[..i] == xs;
    }
  }

  /** An element is kept exactly when it occurs and passes. */
  lemma FilterMembers<T>(s: seq<T>, p: T -> bool)
    ensures forall x :: x in Filter(s, p) <==> x in s && p(x)
  {
    forall x | x in s && p(x) ensures x in Filter(s, p) {
      var i :| 0 <= i < |s| && s[i] == x;
    }
  }

  /** `r` is `s` with some elements left out: its elements occur in `s` in the same order. */
  predicate Subsequence<T(==)>(r: seq<T>, s: seq<T>)
    decreases |s|
  {
    r == [] || (s != [] && ((r[0] == s[0] && Subsequence(r[1..], s[1..])) || Subsequence(r, s[1..])))
  }

  /** Filtering keeps the input order: the kept elements are a subsequence of the input. */
  lemma FilterInOrder<T>(s: seq<T>, p: T -> bool)
    ensures Subsequence(Filter(s, p), s)
  {
    KeptInOrder(s, p);
    assert Filter(s, p) == Kept(s, p);
  }

  /** A prefix of a subsequence of `s` is a subsequence of `s`. */
  lemma {:induction false} SubsequencePrefix<T>(r: seq<T>, t: seq<T>, s: seq<T>)
    requires r <= t && Subsequence(t, s)
    ensures Subsequence(r, s)
    decreases |s|
  {
    if r != [] {
      if t[0] == s[0] && Subsequence(t[1..], s[1..]) {
        assert r[1..] <= t[1..];
        SubsequencePrefix(r[1..], t[1..], s[1..]);
      } else {
        SubsequencePrefix(r, t, s[1..]);
      }
    }
  }

  lemma {:induction false} KeptInOrder<T>(s: seq<T>, p: T -> bool)
    ensures Subsequence(Kept(s, p), s)
  {
    if s != [] {
      var rest := Kept(s[1..], p);
      KeptInOrder(s[1..], p);
      if p(s[0]) {
        var r := [s[0]] + rest;
        assert Kept(s, p) == r && r[1..] == rest;
      } else {
        assert Kept(s, p) == [] + rest == rest;
      }
    }
  }

  /** Sorting neither adds nor drops an element. */
  lemma SortMembers<T>(s: seq<T>, le: (T, T) -> bool)
    ensures forall x :: x in Sort(s, le) <==> x in s
  {
    forall x ensures x in Sort(s, le) <==> x in s {
      assert x in Sort(s, le) <==> x in multiset(Sort(s, le));
    }
  }

  /** Filtering a concatenation filters each part. */
  lemma {:induction false} FilterAppend<T>(a: seq<T>, b: seq<T>, p: T -> bool)
    ensures Filter(a + b, p) == Filter(a, p) + Filter(b, p)
  {
    if a == [] {
      assert a + b == b;
    } else {
      var ab := a + b;
      var head := if p(a[0]) then [a[0]] else [];
      FilterAppend(a[1..], b, p);
      assert ab[1..] == a[1..] + b;
      assert Filter(ab, p) == head + Filter(a[1..] + b, p);
      assert Filter(a, p) == head + Filter(a[1..], p);
      assert head + (Filter(a[1..], p) + Filter(b, p)) == (head + Filter(a[1..], p)) + Filter(b, p);
    }
  }

  /** `Filter` read from the back: the kept prefix, then the last element when it passes. */
  lemma FilterSnoc<T>(s: seq<T>, p: T -> bool)
    ensures s != [] ==> Filter(s, p) == Filter(s[..|s| - 1], p) + (if p(s[|s| - 1]) then [s[|s| - 1]] else [])
  {
    if s != [] {
      var last := [s[|s| - 1]];
      assert s == s[..|s| - 1] + last;
      FilterAppend(s[..|s| - 1], last, p);
      assert last[1..] == [];
    }
  }

  /** Every element passes: nothing is dropped. */
  lemma {:induction false} FilterAll<T>(s: seq<T>, p: T -> bool)
    requires forall i :: 0 <= i < |s| ==> p(s[i])
    ensures Filter(s, p) == s
  {
    if s != [] {
      FilterAll(s[1..], p);
    }
  }

  /** Two tests that agree on every element keep the same elements. */
  lemma {:induction false} FilterAgree<T>(s: seq<T>, p: T -> bool, q: T -> bool)
    requires forall i :: 0 <= i < |s| ==> p(s[i]) == q(s[i])
    ensures Filter(s, p) == Filter(s, q)
  {
    if s != [] {
      FilterAgree(s[1..], p, q);
    }
  }

  /** Filtering twice is filtering once by both tests. */
  lemma {:induction false} FilterFilter<T>(s: seq<T>, p: T -> bool, q: T -> bool, both: T -> bool)
    requires forall x :: both(x) == (p(x) && q(x))
    ensures Filter(Filter(s, p), q) == Filter(s, both)
  {
    if s != [] {
      FilterFilter(s[1..], p, q, both);
      var rest := Filter(s[1..], p);
      if p(s[0]) {
        var t := [s[0]] + rest;
        assert Filter(s, p) == t;
        assert t[1..] == rest;
        assert t != [] && t[0] == s[0];
      } else {
        assert Filter(s, p) == rest;
      }
    }
  }

  lemma {:induction false} FilterOrderPreserving<T>(s: seq<T>, p: T -> bool, le: (T, T) -> bool)
    requires Sorted(s, le)
    ensures Sorted(Filter(s, p), le)
  {
    if s != [] {
      FilterOrderPreserving(s[1..], p, le);
      var rest := Filter(s[1..], p);
      if p(s[0]) {
        forall j | 0 <= j < |rest| ensures le(s[0], rest[j]) {
          assert rest[j] in s[1..];
          var m :| 0 <= m < |s[1..]| && s[1..][m] == rest[j];
          assert s[m + 1] == rest[j];
        }
      }
    }
  }

  lemma PrefixSorted<T>(s: seq<T>, r: seq<T>, le: (T, T) -> bool)
    requires Sorted(s, le) && r <= s
    ensures Sorted(r, le)
  {
    assert forall i :: 0 <= i < |r| ==> r[i] == s[i];
  }

  /** No two elements share a key. */
  ghost predicate UniqueKeys<T, K>(s: seq<T>, key: T -> K) {
    forall i, j :: 0 <= i < j < |s| ==> key(s[i]) != key(s[j])
  }

  /** With unique keys, every element occurs once. */
  lemma UniqueOnce<T, K>(d: seq<T>, key: T -> K, p: nat)
    requires p < |d| && UniqueKeys(d, key)
    ensures multiset(d)[d[p]] == 1
  {
    assert d == d[..p] + [d[p]] + d[p + 1..];
    assert d[p] !in d[..p] && d[p] !in d[p + 1..] by {
      forall m | 0 <= m < |d| && m != p ensures d[m] != d[p] {
        assert m < p || p < m;
      }
    }
  }

  /** Reordering keeps keys unique. */
  lemma UniqueKeysPermuted<T, K>(d: seq<T>, r: seq<T>, key: T -> K)
    requires multiset(d) == multiset(r) && UniqueKeys(d, key)
    ensures UniqueKeys(r, key)
  {
    forall i, j | 0 <= i < j < |r| ensures key(r[i]) != key(r[j]) {
      assert r[i] in multiset(d) && r[j] in multiset(d);
      var p :| 0 <= p < |d| && d[p] == r[i];
      var q :| 0 <= q < |d| && d[q] == r[j];
      if p == q {
        assert r == r[..j] + [r[j]] + r[j + 1..];
        assert r[i] in r[..j];
        assert multiset(r)[r[i]] >= 2;
        UniqueOnce(d, key, p);
      }
    }
  }

  ghost predicate DescendingBy<T>(s: seq<T>, key: T -> real) {
    forall i, j :: 0 <= i < j < |s| ==> key(s[i]) >= key(s[j])
  }

  ghost predicate AscendingBy<T>(s: seq<T>, key: T -> real) {
    forall i, j :: 0 <= i < j < |s| ==> key(s[i]) <= key(s[j])
  }

  /** Any prefix of a descending sequence is descending. */
  lemma DescendingPrefix<T>(s: seq<T>, key: T -> real, n: int)
    requires DescendingBy(s, key)
    ensures DescendingBy(SliceTo(s, n), key)
  {
    var head := SliceTo(s, n);
    assert forall i :: 0 <= i < |head| ==> head[i] == s[i];
  }

  /**
   * Keeping the first `n` of a descending sort keeps `min(|s|, n)` elements
   * of `s`, and no element left out has a larger key than one kept.
   */
  lemma TopByKey<T(!new)>(s: seq<T>, key: T -> real, n: nat)
    ensures |SliceTo(Sort(s, Desc(key)), n)| == if n <= |s| then n else |s|
    ensures multiset(SliceTo(Sort(s, Desc(key)), n)) <= multiset(s)
    ensures forall x, y :: x in SliceTo(Sort(s, Desc(key)), n) && y in multiset(s) - multiset(SliceTo(Sort(s, Desc(key)), n)) ==>
              key(x) >= key(y)
  {
    var ranked := Sort(s, Desc(key));
    var top := SliceTo(ranked, n);
    var k := |top|;
    assert ranked == top + ranked[k..];
    assert multiset(ranked) == multiset(top) + multiset(ranked[k..]);
    SortedDesc(s, key);
    forall x, y | x in top && y in multiset(s) - multiset(top) ensures key(x) >= key(y) {
      assert y in ranked[k..];
      var j :| 0 <= j < |ranked[k..]| && ranked[k..][j] == y;
      var i :| 0 <= i < k && top[i] == x;
      assert ranked[i] == x && ranked[k + j] == y;
    }
  }

  /** Any suffix of a descending sequence is descending. */
  lemma DescendingSuffix<T>(s: seq<T>, key: T -> real, k: nat)
    requires DescendingBy(s, key) && k <= |s|
    ensures DescendingBy(s[k..], key)
  {
    var tail := s[k..];
    forall i, j | 0 <= i < j < |tail| ensures key(tail[i]) >= key(tail[j]) {
      assert tail[i] == s[k + i] && tail[j] == s[k + j];
    }
  }

  /** The reverse of a descending sequence is ascending. */
  lemma ReverseDescending<T>(s: seq<T>, key: T -> real)
    requires DescendingBy(s, key)
    ensures AscendingBy(Reverse(s), key)
  {
    var r := Reverse(s);
    forall i, j | 0 <= i < j < |r| ensures key(r[i]) <= key(r[j]) {
      assert r[i] == s[|s| - 1 - i] && r[j] == s[|s| - 1 - j];
    }
  }

  /** The reverse of the last `n` elements of a descending sequence is ascending. */
  lemma DescendingTailReversed<T>(s: seq<T>, key: T -> real, n: nat)
    requires DescendingBy(s, key)
    ensures AscendingBy(Reverse(LastN(s, n)), key)
  {
    DescendingSuffix(s, key, |s| - |LastN(s, n)|);
    ReverseDescending(LastN(s, n), key);
  }
}
