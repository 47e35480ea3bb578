/**
 * Dictionaries built by successive assignments `d[k] = v` in sequence order,
 * as both the JavaScript `map[k] = v` loops and the Python `d[k] = v` loops
 * do: a later assignment of a key overrides an earlier one.
 */
module Dicts {
  import opened Wrappers

  /** Successive dictionary assignments `d[k] = v`, in order; `None` assigns nothing. */
  function Assign<T, V>(xs: seq<T>, f: T -> Option<(string, V)>): map<string, V> {
    if xs == [] then map[]
    else
      var d := Assign(xs[..|xs| - 1], f);
      var kv := f(xs[|xs| - 1]);
      if kv.Some? then d[kv.value.0 := kv.value.1] else d
  }

  /** One more element: its assignment, if any, on top of the earlier ones. */
  lemma AssignSnoc<T, V>(xs: seq<T>, f: T -> Option<(string, V)>, i: nat)
    requires i < |xs|
    ensures Assign(xs[..i + 1], f) ==
              var d := Assign(xs[..i], f);
              if f(xs[i]).Some? then d[f(xs[i]).value.0 := f(xs[i]).value.1] else d
  {
    assert xs[..i + 1][..i] == xs[..i];
  }

  /** A key is present exactly when some element assigns it. */
  lemma {:induction false} AssignKeys<T, V>(xs: seq<T>, f: T -> Option<(string, V)>)
    ensures forall k :: k in Assign(xs, f) <==>
              exists i :: 0 <= i < |xs| && f(xs[i]).Some? && f(xs[i]).value.0 == k
  {
    if xs != [] {
      var front := xs[..|xs| - 1];
      AssignKeys(front, f);
      assert forall i :: 0 <= i < |front| ==> front[i] == xs[i];
    }
  }

  /** The last assignment of a key decides its value. */
  lemma {:induction false} AssignLastWins<T, V>(xs: seq<T>, f: T -> Option<(string, V)>, i: nat)
    requires i < |xs| && f(xs[i]).Some?
    requires forall j :: i < j < |xs| ==> f(xs[j]).None? || f(xs[j]).value.0 != f(xs[i]).value.0
    ensures f(xs[i]).value.0 in Assign(xs, f)
    ensures Assign(xs, f)[f(xs[i]).value.0] == f(xs[i]).value.1
  {
    var front := xs[..|xs| - 1];
    if i < |xs| - 1 {
      assert front[i] == xs[i];
      assert forall j :: i < j < |front| ==> front[j] == xs[j];
      AssignLastWins(front, f, i);
    }
  }

  /** Every entry of the dictionary was put there by some element. */
  lemma {:induction false} AssignValues<T, V>(xs: seq<T>, f: T -> Option<(string, V)>)
    ensures forall k :: k in Assign(xs, f) ==>
              exists i :: 0 <= i < |xs| && f(xs[i]) == Some((k, Assign(xs, f)[k]))
  {
    if xs != [] {
      var front := xs[..|xs| - 1];
      AssignValues(front, f);
      assert forall i :: 0 <= i < |front| ==> front[i] == xs[i];
    }
  }
}
