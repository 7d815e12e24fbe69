/**
 * Python's ordering of `str` values (lexicographic by code point, a proper
 * prefix first) and `sorted` applied to a collection of distinct strings,
 * as the per-location rollup uses it to order location names.
 */
module StringOrder {

  /** `a < b` on Python strings. */
  predicate Below(a: string, b: string)
  {
    if |a| == 0 then |b| > 0
    else if |b| == 0 then false
    else a[0] < b[0] || (a[0] == b[0] && Below(a[1..], b[1..]))
  }

  lemma {:induction false} BelowIrreflexive(a: string)
    ensures !Below(a, a)
  {
    if |a| > 0 {
      BelowIrreflexive(a[1..]);
    }
  }

  lemma {:induction false} BelowTransitive(a: string, b: string, c: string)
    requires Below(a, b) && Below(b, c)
    ensures Below(a, c)
  {
    if |a| > 0 && |b| > 0 && |c| > 0 && a[0] == b[0] == c[0] {
      BelowTransitive(a[1..], b[1..], c[1..]);
    }
  }

  /** Any two different strings are ordered one way or the other. */
  lemma {:induction false} BelowTotal(a: string, b: string)
    requires a != b
    ensures Below(a, b) || Below(b, a)
  {
    if |a| > 0 && |b| > 0 && a[0] == b[0] {
      assert a == [a[0]] + a[1..] && b == [b[0]] + b[1..];
      BelowTotal(a[1..], b[1..]);
    }
  }

  /** Each string is below its successor. */
  predicate Increasing(s: seq<string>)
  {
    forall i :: 0 < i < |s| ==> Below(s[i - 1], s[i])
  }

  predicate Distinct(s: seq<string>)
  {
    forall i, j :: 0 <= i < j < |s| ==> s[i] != s[j]
  }

  /** In an increasing sequence every earlier string is below every later one, so none repeats. */
  lemma {:induction false} IncreasingIsStrict(s: seq<string>)
    requires Increasing(s)
    ensures forall i, j :: 0 <= i < j < |s| ==> Below(s[i], s[j])
    ensures Distinct(s)
  {
    if |s| > 1 {
      var t := s[1..];
      assert Increasing(t) by {
        forall i | 0 < i < |t| ensures Below(t[i - 1], t[i]) {
          assert t[i - 1] == s[i] && t[i] == s[i + 1];
        }
      }
      IncreasingIsStrict(t);
      forall i, j | 0 <= i < j < |s| ensures Below(s[i], s[j]) {
        if i > 0 {
          assert s[i] == t[i - 1] && s[j] == t[j - 1];
        } else if j > 1 {
          assert s[1] == t[0] && s[j] == t[j - 1];
          BelowTransitive(s[0], s[1], s[j]);
        }
      }
    }
    forall i, j | 0 <= i < j < |s| ensures s[i] != s[j] {
      BelowIrreflexive(s[i]);
    }
  }

  /** Inserts a string that is not yet present into an increasing sequence. */
  function Insert(x: string, s: seq<string>): (r: seq<string>)
    requires Increasing(s) && x !in s
    ensures Increasing(r)
    ensures multiset(r) == multiset(s) + multiset{x}
    ensures |r| > 0 && (r[0] == x || (|s| > 0 && r[0] == s[0]))
  {
    if s == [] then [x]
    else if Below(x, s[0]) then [x] + s
    else
      BelowTotal(x, s[0]);
      var rest := Insert(x, s[1..]);
      assert s == [s[0]] + s[1..];
      [s[0]] + rest
  }

  /** `sorted(...)` of distinct strings: the same strings, in increasing order. */
  function Sort(s: seq<string>): (r: seq<string>)
    requires Distinct(s)
    ensures Increasing(r)
    ensures multiset(r) == multiset(s)
  {
    if s == [] then []
    else
      var last := s[|s| - 1];
      var init := s[..|s| - 1];
      assert s == init + [last];
      var sorted := Sort(init);
      assert last !in multiset(sorted);
      Insert(last, sorted)
  }

  /** Sorting keeps exactly the strings it was given, once each. */
  lemma SortSameStrings(s: seq<string>)
    requires Distinct(s)
    ensures |Sort(s)| == |s| && Distinct(Sort(s))
    ensures forall x :: x in Sort(s) <==> x in s
  {
    var r := Sort(s);
    IncreasingIsStrict(r);
    assert |r| == |multiset(r)| == |multiset(s)| == |s|;
    forall x ensures x in r <==> x in s {
      assert x in r <==> x in multiset(r);
      assert x in s <==> x in multiset(s);
    }
  }
}
