/**
 * Grouping a list of records by a string key into a dictionary that is then
 * read back with `Object.entries`: keys come out in order of first
 * appearance, each with the sum of some field and the number of records.
 */
module Groups {

  /** The keys of `s`, each once, in order of first appearance. */
  function DistinctKeys<T>(s: seq<T>, key: T -> string): (ks: seq<string>)
    ensures forall i, j :: 0 <= i < j < |ks| ==> ks[i] != ks[j]
    ensures forall i :: 0 <= i < |s| ==> key(s[i]) in ks
    ensures forall k :: k in ks ==> exists i :: 0 <= i < |s| && key(s[i]) == k
    ensures |ks| <= |s|
  {
    if s == [] then []
    else
      var p := s[..|s| - 1];
      var ks := DistinctKeys(p, key);
      assert forall i :: 0 <= i < |p| ==> p[i] == s[i];
      if key(s[|s| - 1]) in ks then ks else ks + [key(s[|s| - 1])]
  }

  /** The sum of `val` over the records whose key is `k`. */
  function SumWhere<T>(s: seq<T>, key: T -> string, k: string, val: T -> real): real {
    if s == [] then 0.0
    else SumWhere(s[..|s| - 1], key, k, val) + (if key(s[|s| - 1]) == k then val(s[|s| - 1]) else 0.0)
  }

  /** The number of records whose key is `k`. */
  function CountWhere<T>(s: seq<T>, key: T -> string, k: string): nat {
    if s == [] then 0
    else CountWhere(s[..|s| - 1], key, k) + (if key(s[|s| - 1]) == k then 1 else 0)
  }

  /** The sum of `val` over all records. */
  function SumAll<T>(s: seq<T>, val: T -> real): real {
    if s == [] then 0.0 else SumAll(s[..|s| - 1], val) + val(s[|s| - 1])
  }

  /** The group sums added up over the keys `ks`. */
  function SumOver<T>(s: seq<T>, key: T -> string, ks: seq<string>, val: T -> real): real {
    if ks == [] then 0.0 else SumOver(s, key, ks[..|ks| - 1], val) + SumWhere(s, key, ks[|ks| - 1], val)
  }

  /** The group counts added up over the keys `ks`. */
  function CountOver<T>(s: seq<T>, key: T -> string, ks: seq<string>): nat {
    if ks == [] then 0 else CountOver(s, key, ks[..|ks| - 1]) + CountWhere(s, key, ks[|ks| - 1])
  }

  lemma {:induction false} SumWhereAbsent<T>(s: seq<T>, key: T -> string, k: string, val: T -> real)
    requires forall i :: 0 <= i < |s| ==> key(s[i]) != k
    ensures SumWhere(s, key, k, val) == 0.0 && CountWhere(s, key, k) == 0
  {
    if s != [] {
      SumWhereAbsent(s[..|s| - 1], key, k, val);
    }
  }

  /** Appending one record adds its value to exactly one of the distinct keys' sums. */
  lemma {:induction false} SumOverSnoc<T>(s: seq<T>, x: T, key: T -> string, ks: seq<string>, val: T -> real)
    requires forall i, j :: 0 <= i < j < |ks| ==> ks[i] != ks[j]
    ensures SumOver(s + [x], key, ks, val) == SumOver(s, key, ks, val) + (if key(x) in ks then val(x) else 0.0)
    ensures CountOver(s + [x], key, ks) == CountOver(s, key, ks) + (if key(x) in ks then 1 else 0)
  {
    assert (s + [x])[..|s + [x]| - 1] == s;
    if ks != [] {
      var front := ks[..|ks| - 1];
      SumOverSnoc(s, x, key, front, val);
      assert key(x) in ks <==> key(x) in front || key(x) == ks[|ks| - 1];
      assert key(x) == ks[|ks| - 1] ==> key(x) !in front;
    }
  }

  /** Adding up the per-key sums over the distinct keys gives the overall sum. */
  lemma {:induction false} SumOverDistinctKeys<T>(s: seq<T>, key: T -> string, val: T -> real)
    ensures SumOver(s, key, DistinctKeys(s, key), val) == SumAll(s, val)
    ensures CountOver(s, key, DistinctKeys(s, key)) == |s|
  {
    if s != [] {
      var p, x := s[..|s| - 1], s[|s| - 1];
      assert s == p + [x];
      var ks := DistinctKeys(p, key);
      SumOverDistinctKeys(p, key, val);
      SumOverSnoc(p, x, key, ks, val);
      if key(x) !in ks {
        assert (ks + [key(x)])[..|ks|] == ks;
        assert forall i :: 0 <= i < |p| ==> key(p[i]) != key(x);
        SumWhereAbsent(p, key, key(x), val);
        assert SumWhere(s, key, key(x), val) == val(x);
      }
    }
  }

  /** A key of the list has at least one record. */
  lemma {:induction false} DistinctKeysCounted<T>(s: seq<T>, key: T -> string, k: string)
    requires k in DistinctKeys(s, key)
    ensures CountWhere(s, key, k) > 0
  {
    var p := s[..|s| - 1];
    if key(s[|s| - 1]) != k {
      assert k in DistinctKeys(p, key);
      DistinctKeysCounted(p, key, k);
    }
  }

  /** Two value functions that agree on every record of a group give the same group sum. */
  lemma {:induction false} SumWhereAgree<T>(s: seq<T>, key: T -> string, k: string, f: T -> real, g: T -> real)
    requires forall i :: 0 <= i < |s| && key(s[i]) == k ==> f(s[i]) == g(s[i])
    ensures SumWhere(s, key, k, f) == SumWhere(s, key, k, g)
  {
    if s != [] {
      var p := s[..|s| - 1];
      assert forall i :: 0 <= i < |p| ==> p[i] == s[i];
      SumWhereAgree(p, key, k, f, g);
    }
  }

  /** A group sum of a value that is zero on every record of the group is zero. */
  lemma {:induction false} SumWhereZero<T>(s: seq<T>, key: T -> string, k: string, f: T -> real)
    requires forall i :: 0 <= i < |s| && key(s[i]) == k ==> f(s[i]) == 0.0
    ensures SumWhere(s, key, k, f) == 0.0
  {
    if s != [] {
      var p := s[..|s| - 1];
      assert forall i :: 0 <= i < |p| ==> p[i] == s[i];
      SumWhereZero(p, key, k, f);
    }
  }
}
