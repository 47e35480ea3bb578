/**
 * Cutting a list into consecutive slices of a fixed size, as every quote
 * fetcher, price batcher and database batch writer of the system does with
 * `for (i = 0; i < n; i += size) list.slice(i, i + size)`.
 */
module Chunking {

  /** JavaScript `s.slice(i, j)` for `0 <= i`; both ends are clamped to the length. */
  function Slice<T>(s: seq<T>, i: nat, j: int): (r: seq<T>)
    ensures |r| <= |s|
  {
    var lo := if i <= |s| then i else |s|;
    var hi := if j < lo then lo else if j <= |s| then j else |s|;
    s[lo..hi]
  }

  /** The slices of `size` consecutive elements, in order; the last may be shorter. */
  function Chunked<T>(s: seq<T>, size: nat): seq<seq<T>>
    requires size > 0
    decreases |s|
  {
    if |s| == 0 then []
    else if |s| <= size then [s]
    else [s[..size]] + Chunked(s[size..], size)
  }

  function Flatten<T>(ss: seq<seq<T>>): seq<T> {
    if ss == [] then [] else ss[0] + Flatten(ss[1..])
  }

  lemma FlattenAppend<T>(a: seq<seq<T>>, b: seq<seq<T>>)
    ensures Flatten(a + b) == Flatten(a) + Flatten(b)
  {
    if a != [] {
      assert (a + b)[0] == a[0];
      assert (a + b)[1..] == a[1..] + b;
      FlattenAppend(a[1..], b);
      assert Flatten(a + b) == a[0] + (Flatten(a[1..]) + Flatten(b));
    } else {
      assert a + b == b;
    }
  }

  /** An element is in the concatenation exactly when it is in one of the parts. */
  lemma {:induction false} FlattenMember<T>(ss: seq<seq<T>>, x: T)
    ensures x in Flatten(ss) <==> exists i :: 0 <= i < |ss| && x in ss[i]
  {
    if ss != [] {
      FlattenMember(ss[1..], x);
      assert forall i :: 1 <= i < |ss| ==> ss[i] == ss[1..][i - 1];
      if x in Flatten(ss[1..]) {
        var i :| 0 <= i < |ss[1..]| && x in ss[1..][i];
        assert x in ss[i + 1];
      }
    }
  }

  /** Concatenating the slices gives back the list: nothing is lost, repeated or reordered. */
  lemma {:induction false} FlattenChunked<T>(s: seq<T>, size: nat)
    requires size > 0
    ensures Flatten(Chunked(s, size)) == s
    decreases |s|
  {
    if |s| > size {
      FlattenChunked(s[size..], size);
      assert s == s[..size] + s[size..];
    }
  }

  /** Every slice is non-empty and at most `size` long, and all but the last are exactly `size`. */
  lemma {:induction false} ChunkSizes<T>(s: seq<T>, size: nat)
    requires size > 0
    ensures forall i :: 0 <= i < |Chunked(s, size)| ==> 0 < |Chunked(s, size)[i]| <= size
    ensures forall i :: 0 <= i < |Chunked(s, size)| - 1 ==> |Chunked(s, size)[i]| == size
    decreases |s|
  {
    if |s| > size {
      ChunkSizes(s[size..], size);
      var c := Chunked(s, size);
      assert c[1..] == Chunked(s[size..], size);
    }
  }

  /** There are exactly ceil(|s| / size) slices: the fewest slices of `size` that cover `s`. */
  lemma {:induction false} ChunkCount<T>(s: seq<T>, size: nat)
    requires size > 0
    ensures (|Chunked(s, size)| - 1) * size < |s| <= |Chunked(s, size)| * size
    decreases |s|
  {
    if |s| > size {
      ChunkCount(s[size..], size);
      var k := |Chunked(s[size..], size)|;
      assert |Chunked(s, size)| == k + 1;
      assert (k + 1) * size == k * size + size;
    }
  }

  /** The slice taken at offset `i` of the loop is the head of the remaining chunks. */
  lemma ChunkStep<T>(s: seq<T>, i: nat, size: nat)
    requires size > 0 && i < |s|
    ensures Chunked(s[i..], size) ==
      [Slice(s, i, i + size)] + (if i + size < |s| then Chunked(s[i + size..], size) else [])
  {
    var rest := s[i..];
    if i + size < |s| {
      assert |rest| > size;
      assert rest[size..] == s[i + size..];
      assert rest[..size] == s[i..i + size];
      assert Chunked(rest, size) == [rest[..size]] + Chunked(rest[size..], size);
    } else {
      assert Slice(s, i, i + size) == rest;
    }
  }

  /** After the loop has cut up to `offset`, `done` holds the first slices and the rest are still to come. */
  ghost predicate CutUpTo<T>(s: seq<T>, size: nat, offset: nat, done: seq<seq<T>>)
    requires size > 0
  {
    if offset <= |s| then done + Chunked(s[offset..], size) == Chunked(s, size)
    else done == Chunked(s, size)
  }

  /** One turn of the slicing loop keeps `CutUpTo`. */
  lemma CutStep<T>(s: seq<T>, size: nat, offset: nat, done: seq<seq<T>>)
    requires size > 0 && offset < |s| && CutUpTo(s, size, offset, done)
    ensures CutUpTo(s, size, offset + size, done + [Slice(s, offset, offset + size)])
  {
    ChunkStep(s, offset, size);
    if offset + size == |s| {
      assert s[offset + size..] == [];
    }
  }

  /** When the loop stops, the slices cut are all of them. */
  lemma CutDone<T>(s: seq<T>, size: nat, offset: nat, done: seq<seq<T>>)
    requires size > 0 && offset >= |s| && CutUpTo(s, size, offset, done)
    ensures done == Chunked(s, size)
  {
    if offset == |s| {
      assert s[offset..] == [];
    }
  }
  /**
   * The slicing loop `for (i = 0; i < s.length; i += size) chunks.push(s.slice(i, i + size))`:
   * the result is the specified chunking, so it covers the list exactly, in
   * order, with every slice non-empty and at most `size` long.
   */
  method Cut<T>(s: seq<T>, size: nat) returns (chunks: seq<seq<T>>)
    requires size > 0
    ensures chunks == Chunked(s, size)
    ensures Flatten(chunks) == s
    ensures forall i :: 0 <= i < |chunks| ==> 0 < |chunks[i]| <= size
  {
    chunks := [];
    var i := 0;
    while i < |s|
      invariant CutUpTo(s, size, i, chunks)
      decreases |s| - i
    {
      CutStep(s, size, i, chunks);
      chunks := chunks + [Slice(s, i, i + size)];
      i := i + size;
    }
    CutDone(s, size, i, chunks);
    FlattenChunked(s, size);
    ChunkSizes(s, size);
  }


  /** The number of rows in the batches whose write succeeded (`ok`). */
  function WrittenRows<T>(batches: seq<seq<T>>, ok: seq<T> -> bool): nat {
    if batches == [] then 0
    else WrittenRows(batches[..|batches| - 1], ok) + (if ok(batches[|batches| - 1]) then |batches[|batches| - 1]| else 0)
  }

  /** The number of batches whose write failed. */
  function FailedBatches<T>(batches: seq<seq<T>>, ok: seq<T> -> bool): nat {
    if batches == [] then 0
    else FailedBatches(batches[..|batches| - 1], ok) + (if ok(batches[|batches| - 1]) then 0 else 1)
  }

  /** One more batch adds its rows to the written count when it succeeds, and one failure when it does not. */
  lemma TalliesSnoc<T>(batches: seq<seq<T>>, batch: seq<T>, ok: seq<T> -> bool)
    ensures WrittenRows(batches + [batch], ok) == WrittenRows(batches, ok) + (if ok(batch) then |batch| else 0)
    ensures FailedBatches(batches + [batch], ok) == FailedBatches(batches, ok) + (if ok(batch) then 0 else 1)
  {
    assert (batches + [batch])[..|batches|] == batches;
  }

  /** The written rows never exceed the rows offered, and are all of them when no batch failed. */
  lemma {:induction false} WrittenRowsBound<T>(batches: seq<seq<T>>, ok: seq<T> -> bool)
    ensures WrittenRows(batches, ok) <= |Flatten(batches)|
    ensures FailedBatches(batches, ok) == 0 ==> WrittenRows(batches, ok) == |Flatten(batches)|
    ensures FailedBatches(batches, ok) <= |batches|
  {
    if batches != [] {
      var front := batches[..|batches| - 1];
      WrittenRowsBound(front, ok);
      FlattenAppend(front, [batches[|batches| - 1]]);
      assert front + [batches[|batches| - 1]] == batches;
      assert Flatten([batches[|batches| - 1]]) == batches[|batches| - 1] + Flatten([]);
    }
  }

  /**
   * The batch writer: consecutive batches of `size` in order, each written
   * once; `total` adds up the rows of the successful batches and `errors`
   * counts the failed ones.
   */
  method WriteBatches<T>(rows: seq<T>, size: nat, ok: seq<T> -> bool)
    returns (batches: seq<seq<T>>, total: nat, errors: nat)
    requires size > 0
    ensures batches == Chunked(rows, size)
    ensures total == WrittenRows(batches, ok) && errors == FailedBatches(batches, ok)
    ensures total <= |rows| && errors <= |batches|
    ensures errors == 0 ==> total == |rows|
  {
    batches, total, errors := [], 0, 0;
    var i := 0;
    while i < |rows|
      invariant CutUpTo(rows, size, i, batches)
      invariant total == WrittenRows(batches, ok) && errors == FailedBatches(batches, ok)
      decreases |rows| - i
    {
      batches, total, errors := WriteBatch(rows, size, i, ok, batches, total, errors);
      i := i + size;
    }
    CutDone(rows, size, i, batches);
    ChunkedTallies(rows, size, ok);
  }

  /** One turn of the writer: post the batch starting at `offset` and tally its outcome. */
  method WriteBatch<T>(rows: seq<T>, size: nat, offset: nat, ok: seq<T> -> bool,
                       batches: seq<seq<T>>, total: nat, errors: nat)
    returns (batches': seq<seq<T>>, total': nat, errors': nat)
    requires size > 0 && offset < |rows| && CutUpTo(rows, size, offset, batches)
    requires total == WrittenRows(batches, ok) && errors == FailedBatches(batches, ok)
    ensures CutUpTo(rows, size, offset + size, batches')
    ensures total' == WrittenRows(batches', ok) && errors' == FailedBatches(batches', ok)
  {
    var batch := Slice(rows, offset, offset + size);
    CutStep(rows, size, offset, batches);
    TalliesSnoc(batches, batch, ok);
    total', errors' := total, errors;
    if ok(batch) {
      total' := total + |batch|;
    } else {
      errors' := errors + 1;
    }
    batches' := batches + [batch];
  }

  /** Writing the batches of `rows` commits at most all the rows, and all of them when no batch fails. */
  lemma ChunkedTallies<T>(rows: seq<T>, size: nat, ok: seq<T> -> bool)
    requires size > 0
    ensures WrittenRows(Chunked(rows, size), ok) <= |rows|
    ensures FailedBatches(Chunked(rows, size), ok) <= |Chunked(rows, size)|
    ensures FailedBatches(Chunked(rows, size), ok) == 0 ==> WrittenRows(Chunked(rows, size), ok) == |rows|
  {
    WrittenRowsBound(Chunked(rows, size), ok);
    FlattenChunked(rows, size);
  }
}
