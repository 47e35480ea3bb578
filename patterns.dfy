/**
 * The small pattern language the classifier tables are written in: an
 * alternation of fixed-width alternatives, each a run of literal characters
 * and `.` wildcards, optionally anchored by `\b` word boundaries; and the
 * first-match-wins rule tables built from such patterns.
 */
module Patterns {
  import opened Wrappers
  import opened Text

  /** One position of an alternative: a literal character or `.` (anything but a newline). */
  datatype Atom = Char(c: char) | AnyChar

  /** One alternative of a pattern, with its optional `\b` anchors at either end. */
  datatype Alt = Alt(atoms: seq<Atom>, wordStart: bool, wordEnd: bool)

  /** `a|b|c`. */
  type Pattern = seq<Alt>

  /** A literal string. */
  function Lit(s: string): (a: Alt)
    ensures |a.atoms| == |s| && !a.wordStart && !a.wordEnd
    ensures forall i :: 0 <= i < |s| ==> a.atoms[i] == Char(s[i])
  {
    Alt(seq(|s|, i requires 0 <= i < |s| => Char(s[i])), false, false)
  }

  /** `\bword\b`. */
  function Word(s: string): (a: Alt)
    ensures |a.atoms| == |s| && a.wordStart && a.wordEnd
    ensures forall i :: 0 <= i < |s| ==> a.atoms[i] == Char(s[i])
  {
    Lit(s).(wordStart := true, wordEnd := true)
  }

  /** A string where every `.` is the wildcard. */
  function Dotted(s: string): (a: Alt)
    ensures |a.atoms| == |s| && !a.wordStart && !a.wordEnd
    ensures forall i :: 0 <= i < |s| ==> a.atoms[i] == (if s[i] == '.' then AnyChar else Char(s[i]))
  {
    Alt(seq(|s|, i requires 0 <= i < |s| => if s[i] == '.' then AnyChar else Char(s[i])), false, false)
  }

  /** A pattern of literal alternatives only: `a|b|c` with no metacharacters. */
  function Lits(words: seq<string>): (p: Pattern)
    ensures |p| == |words|
    ensures forall i :: 0 <= i < |words| ==> p[i] == Lit(words[i])
  {
    seq(|words|, i requires 0 <= i < |words| => Lit(words[i]))
  }

  predicate AtomMatches(a: Atom, c: char) {
    match a
    case Char(x) => c == x
    case AnyChar => c != '\n'
  }

  /** `\b` between positions `k - 1` and `k`: exactly one side is a word character. */
  predicate Boundary(s: string, k: nat) {
    (0 < k <= |s| && IsWordChar(s[k - 1])) != (k < |s| && IsWordChar(s[k]))
  }

  /** The alternative matches `s` starting at `k`. */
  predicate AltAt(s: string, a: Alt, k: nat) {
    && k + |a.atoms| <= |s|
    && (forall i :: 0 <= i < |a.atoms| ==> AtomMatches(a.atoms[i], s[k + i]))
    && (a.wordStart ==> Boundary(s, k))
    && (a.wordEnd ==> Boundary(s, k + |a.atoms|))
  }

  /** `re.search` for one alternative, scanning start positions from `k` on. */
  function FindFrom(s: string, a: Alt, k: nat): (found: bool)
    ensures found <==> exists j :: k <= j <= |s| && AltAt(s, a, j)
    decreases |s| - k
  {
    if k > |s| then false
    else AltAt(s, a, k) || FindFrom(s, a, k + 1)
  }

  /** `re.search(p, s)` (and `pattern.test(s)`): some alternative occurs somewhere. */
  function Matches(s: string, p: Pattern): (found: bool)
    ensures found <==> exists i, k :: 0 <= i < |p| && 0 <= k <= |s| && AltAt(s, p[i], k)
  {
    if p == [] then false
    else
      var rest := Matches(s, p[1..]);
      assert rest <==> exists i, k :: 1 <= i < |p| && 0 <= k <= |s| && AltAt(s, p[i], k) by {
        forall i | 1 <= i < |p| ensures p[i] == p[1..][i - 1] { }
        if rest {
          var i, k :| 0 <= i < |p[1..]| && 0 <= k <= |s| && AltAt(s, p[1..][i], k);
          assert AltAt(s, p[i + 1], k);
        }
      }
      FindFrom(s, p[0], 0) || rest
  }

  /** A literal alternative occurs exactly when the string is a substring (`in` / `includes`). */
  lemma LitMatches(s: string, w: string)
    ensures Matches(s, [Lit(w)]) <==> Contains(s, w)
  {
    ContainsIff(s, w);
    if Contains(s, w) {
      var k: nat :| OccursAt(s, w, k);
      assert AltAt(s, Lit(w), k) by {
        forall i | 0 <= i < |w| ensures s[k + i] == w[i] {
          assert s[k..k + |w|][i] == w[i];
        }
      }
    }
    if Matches(s, [Lit(w)]) {
      var i, k :| 0 <= i < 1 && 0 <= k <= |s| && AltAt(s, [Lit(w)][i], k);
      assert s[k..k + |w|] == w;
      assert OccursAt(s, w, k);
    }
  }

  /** A pattern matches exactly when one of its alternatives does. */
  lemma MatchesSome(s: string, p: Pattern, i: nat)
    requires i < |p| && Matches(s, [p[i]])
    ensures Matches(s, p)
  {
    var i', k :| 0 <= i' < 1 && 0 <= k <= |s| && AltAt(s, [p[i]][i'], k);
    assert AltAt(s, p[i], k);
  }

  /** A rule fires when every one of its patterns matches (`a && b`; a single pattern is the common case). */
  datatype Rule<T> = Rule(tests: seq<Pattern>, result: T)

  predicate Fires<T>(s: string, r: Rule<T>) {
    forall i :: 0 <= i < |r.tests| ==> Matches(s, r.tests[i])
  }

  /** An `if … return` chain: the result of the first rule that fires, in table order. */
  function FirstRule<T>(rules: seq<Rule<T>>, s: string): (r: Option<T>)
    ensures r.None? <==> forall i :: 0 <= i < |rules| ==> !Fires(s, rules[i])
  {
    if rules == [] then None
    else if Fires(s, rules[0]) then Some(rules[0].result)
    else
      assert forall i :: 1 <= i < |rules| ==> rules[i] == rules[1..][i - 1];
      FirstRule(rules[1..], s)
  }

  /** A result comes from a rule that fires, with no earlier rule firing. */
  lemma {:induction false} FirstRuleChoice<T>(rules: seq<Rule<T>>, s: string) returns (i: nat)
    requires FirstRule(rules, s).Some?
    ensures i < |rules| && Fires(s, rules[i]) && FirstRule(rules, s).value == rules[i].result
    ensures forall j :: 0 <= j < i ==> !Fires(s, rules[j])
  {
    if Fires(s, rules[0]) {
      i := 0;
    } else {
      var k := FirstRuleChoice(rules[1..], s);
      i := k + 1;
      assert rules[i] == rules[1..][k];
      assert forall j :: 1 <= j < i ==> rules[j] == rules[1..][j - 1];
    }
  }

  /** Table order decides: once rule `i` fires, no later rule matters. */
  lemma FirstRuleAt<T>(rules: seq<Rule<T>>, s: string, i: nat)
    requires i < |rules| && Fires(s, rules[i])
    requires forall j :: 0 <= j < i ==> !Fires(s, rules[j])
    ensures FirstRule(rules, s) == Some(rules[i].result)
  {
    var i' := FirstRuleChoice(rules, s);
  }

  /** The `for (pattern, result) in table: if test: return result` loop. */
  method ScanRules<T>(rules: seq<Rule<T>>, s: string) returns (r: Option<T>)
    ensures r == FirstRule(rules, s)
  {
    for i := 0 to |rules|
      invariant forall j :: 0 <= j < i ==> !Fires(s, rules[j])
    {
      if Fires(s, rules[i]) {
        FirstRuleAt(rules, s, i);
        return Some(rules[i].result);
      }
    }
    return None;
  }
}
