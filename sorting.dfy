/**
 * JavaScript's default `Array.prototype.sort()` on strings (lexicographic,
 * character by character) and the topic lists `[...new Set(xs)].sort()`
 * built from it.
 */
module Sorting {
  import opened Seqs

  /** `a` comes no later than `b` in lexicographic character order. */
  predicate LessEq(a: string, b: string) {
    if a == [] then true
    else if b == [] then false
    else if a[0] != b[0] then a[0] < b[0]
    else LessEq(a[1..], b[1..])
  }

  lemma {:induction false} LessEqTotal(a: string, b: string)
    ensures LessEq(a, b) || LessEq(b, a)
  {
    if a != [] && b != [] && a[0] == b[0] {
      LessEqTotal(a[1..], b[1..]);
    }
  }

  lemma {:induction false} LessEqAntisymmetric(a: string, b: string)
    requires LessEq(a, b) && LessEq(b, a)
    ensures a == b
  {
    if a != [] && b != [] {
      LessEqAntisymmetric(a[1..], b[1..]);
      assert a == [a[0]] + a[1..] && b == [b[0]] + b[1..];
    }
  }

  lemma {:induction false} LessEqTransitive(a: string, b: string, c: string)
    requires LessEq(a, b) && LessEq(b, c)
    ensures LessEq(a, c)
  {
    if a != [] && b != [] && c != [] && a[0] == b[0] == c[0] {
      LessEqTransitive(a[1..], b[1..], c[1..]);
    }
  }

  /** Every element is no later than every element after it. */
  predicate Sorted(s: seq<string>) {
    forall i, j :: 0 <= i < j < |s| ==> LessEq(s[i], s[j])
  }

  function Insert(x: string, s: seq<string>): (r: seq<string>)
    ensures multiset(r) == multiset(s) + multiset{x}
  {
    if s == [] then [x]
    else if LessEq(x, s[0]) then [x] + s
    else
      assert s == [s[0]] + s[1..];
      [s[0]] + Insert(x, s[1..])
  }

  lemma SortedTail(s: seq<string>)
    requires Sorted(s) && s != []
    ensures Sorted(s[1..])
    ensures forall k :: 0 <= k < |s[1..]| ==> LessEq(s[0], s[1..][k])
  {
    forall i, j | 0 <= i < j < |s[1..]| ensures LessEq(s[1..][i], s[1..][j]) {
      assert s[1..][i] == s[i + 1] && s[1..][j] == s[j + 1];
    }
    forall k | 0 <= k < |s[1..]| ensures LessEq(s[0], s[1..][k]) {
      assert s[1..][k] == s[k + 1];
    }
  }

  /** Prepending a lower bound of a sorted sequence keeps it sorted. */
  lemma SortedCons(h: string, t: seq<string>)
    requires Sorted(t)
    requires forall k :: 0 <= k < |t| ==> LessEq(h, t[k])
    ensures Sorted([h] + t)
  {
    var r := [h] + t;
    forall i, j | 0 <= i < j < |r| ensures LessEq(r[i], r[j]) {
      assert r[j] == t[j - 1];
      if i > 0 {
        assert r[i] == t[i - 1];
      }
    }
  }

  lemma {:induction false} InsertSorted(x: string, s: seq<string>)
    requires Sorted(s)
    ensures Sorted(Insert(x, s))
  {
    if s == [] {
    } else if LessEq(x, s[0]) {
      forall k | 0 <= k < |s| ensures LessEq(x, s[k]) {
        if k > 0 {
          LessEqTransitive(x, s[0], s[k]);
        }
      }
      SortedCons(x, s);
    } else {
      LessEqTotal(x, s[0]);
      SortedTail(s);
      var tail := s[1..];
      InsertSorted(x, tail);
      var r := Insert(x, tail);
      forall k | 0 <= k < |r| ensures LessEq(s[0], r[k]) {
        assert r[k] in multiset(r);
        if r[k] != x {
          assert r[k] in multiset(tail);
          var m :| 0 <= m < |tail| && tail[m] == r[k];
        }
      }
      SortedCons(s[0], r);
    }
  }

  /** `s.sort()`: the sorted rearrangement of `s`. */
  function Sort(s: seq<string>): (r: seq<string>)
    ensures Sorted(r)
    ensures multiset(r) == multiset(s)
  {
    if s == [] then []
    else
      assert s == [s[0]] + s[1..];
      InsertSorted(s[0], Sort(s[1..]));
      Insert(s[0], Sort(s[1..]))
  }

  /** Strictly increasing: sorted and without repeats. */
  predicate StrictlySorted(s: seq<string>) {
    forall i, j :: 0 <= i < j < |s| ==> LessEq(s[i], s[j]) && s[i] != s[j]
  }

  /**
   * `[...new Set(xs)].sort()`: every element of `xs` exactly once, in
   * increasing order.
   */
  function UniqueSorted(xs: seq<string>): (r: seq<string>)
    ensures StrictlySorted(r)
    ensures forall t :: t in r <==> t in xs
  {
    var d := Dedup(xs);
    var r := Sort(d);
    PermutationDistinct(d, r);
    assert forall t :: t in r <==> t in multiset(d);
    r
  }

  /** Two strictly increasing lists holding the same strings are equal. */
  lemma {:induction false} StrictlySortedUnique(a: seq<string>, b: seq<string>)
    requires StrictlySorted(a) && StrictlySorted(b)
    requires forall t :: t in a <==> t in b
    ensures a == b
  {
    assert a != [] ==> a[0] in b;
    assert b != [] ==> b[0] in a;
    if a != [] && b != [] {
      if a[0] != b[0] {
        assert a[0] in b && b[0] in a;
        var i :| 0 <= i < |b| && b[i] == a[0];
        var j :| 0 <= j < |a| && a[j] == b[0];
        assert LessEq(b[0], a[0]) && LessEq(a[0], b[0]);
        LessEqAntisymmetric(a[0], b[0]);
      }
      forall t ensures t in a[1..] <==> t in b[1..] {
        if t in a[1..] {
          var i :| 1 <= i < |a| && a[i] == t;
          assert t in b;
          var j :| 0 <= j < |b| && b[j] == t;
          assert j != 0;
        }
        if t in b[1..] {
          var j :| 1 <= j < |b| && b[j] == t;
          assert t in a;
          var i :| 0 <= i < |a| && a[i] == t;
          assert i != 0;
        }
      }
      StrictlySortedUnique(a[1..], b[1..]);
      assert a == [a[0]] + a[1..] && b == [b[0]] + b[1..];
    }
  }
}
