/**
 * Sequence helpers: JavaScript's `Array.prototype.filter`, the order-keeping
 * de-duplication `[...new Set(xs)]`, and the facts about them the components
 * rely on.
 */
module Seqs {

  /** `a` can be obtained from `b` by deleting elements (order kept). */
  predicate IsSubseq<T(==)>(a: seq<T>, b: seq<T>)
    decreases |b|
  {
    if a == [] then true
    else if b == [] then false
    else if a[0] == b[0] then IsSubseq(a[1..], b[1..])
    else IsSubseq(a, b[1..])
  }

  /** No element occurs twice. */
  predicate Distinct<T(==)>(s: seq<T>) {
    forall i, j :: 0 <= i < j < |s| ==> s[i] != s[j]
  }

  /** `xs.filter(p)`. */
  function Filter<T(==)>(xs: seq<T>, p: T -> bool): (r: seq<T>)
    ensures |r| <= |xs|
    ensures forall i :: 0 <= i < |r| ==> p(r[i]) && r[i] in xs
    ensures forall i :: 0 <= i < |xs| && p(xs[i]) ==> xs[i] in r
    ensures IsSubseq(r, xs)
  {
    if xs == [] then []
    else if p(xs[0]) then [xs[0]] + Filter(xs[1..], p)
    else Filter(xs[1..], p)
  }

  lemma {:induction false} FilterAppend<T>(a: seq<T>, b: seq<T>, p: T -> bool)
    ensures Filter(a + b, p) == Filter(a, p) + Filter(b, p)
  {
    if a == [] {
      assert a + b == b;
    } else {
      assert (a + b)[1..] == a[1..] + b;
      FilterAppend(a[1..], b, p);
    }
  }

  /** Filtering by `p` and then by `q` is filtering once by their conjunction `pq`. */
  lemma {:induction false} FilterFilter<T>(xs: seq<T>, p: T -> bool, q: T -> bool, pq: T -> bool)
    requires forall x :: pq(x) == (p(x) && q(x))
    ensures Filter(Filter(xs, p), q) == Filter(xs, pq)
  {
    if xs != [] {
      FilterFilter(xs[1..], p, q, pq);
    }
  }

  /** A filter that every element passes keeps the whole sequence. */
  lemma {:induction false} FilterAll<T>(xs: seq<T>, p: T -> bool)
    requires forall i :: 0 <= i < |xs| ==> p(xs[i])
    ensures Filter(xs, p) == xs
  {
    if xs != [] {
      FilterAll(xs[1..], p);
    }
  }

  /** A filter that no element passes keeps nothing. */
  lemma {:induction false} FilterNone<T>(xs: seq<T>, p: T -> bool)
    requires forall i :: 0 <= i < |xs| ==> !p(xs[i])
    ensures Filter(xs, p) == []
  {
    if xs != [] {
      FilterNone(xs[1..], p);
    }
  }

  /** The first element of `a` sits somewhere in its rearrangement `b`; the rest of `a` rearranges what is left of `b`. */
  lemma PickOut<T>(a: seq<T>, b: seq<T>) returns (k: nat)
    requires a != [] && multiset(a) == multiset(b)
    ensures k < |b| && b[k] == a[0]
    ensures multiset(a[1..]) == multiset(b[..k] + b[k + 1..])
  {
    assert a[0] in multiset(b);
    k :| 0 <= k < |b| && b[k] == a[0];
    var rest := b[..k] + b[k + 1..];
    assert b == b[..k] + [b[k]] + b[k + 1..];
    assert multiset(b) == multiset(rest) + multiset{a[0]};
    assert a == [a[0]] + a[1..];
    assert multiset(a) == multiset(a[1..]) + multiset{a[0]};
    assert multiset(a[1..]) == multiset(a) - multiset{a[0]};
  }

  /** Taking `x` out of the middle takes out at most that one element of the filtered result. */
  lemma FilterLengthMiddle<T>(b: seq<T>, k: nat, p: T -> bool)
    requires k < |b|
    ensures |Filter(b, p)| == |Filter(b[..k] + b[k + 1..], p)| + (if p(b[k]) then 1 else 0)
  {
    var l, r := b[..k], b[k + 1..];
    assert b == l + [b[k]] + r;
    FilterAppend(l + [b[k]], r, p);
    FilterAppend(l, [b[k]], p);
    FilterAppend(l, r, p);
  }

  /** Filtering a rearrangement keeps as many elements. */
  lemma {:induction false} FilterPermutation<T>(a: seq<T>, b: seq<T>, p: T -> bool)
    requires multiset(a) == multiset(b)
    ensures |Filter(a, p)| == |Filter(b, p)|
    decreases |a|
  {
    if a == [] {
      assert b == [] by { assert |b| == |multiset(b)| == 0; }
    } else {
      var k := PickOut(a, b);
      FilterPermutation(a[1..], b[..k] + b[k + 1..], p);
      FilterLengthMiddle(b, k, p);
      assert |Filter(a, p)| == |Filter(a[1..], p)| + (if p(a[0]) then 1 else 0);
    }
  }

  /** `xs.filter(y => y !== x)`. */
  function RemoveAll<T(==)>(xs: seq<T>, x: T): (r: seq<T>)
    ensures x !in r
    ensures forall i :: 0 <= i < |xs| && xs[i] != x ==> xs[i] in r
    ensures forall i :: 0 <= i < |r| ==> r[i] in xs
    ensures IsSubseq(r, xs)
  {
    Filter(xs, y => y != x)
  }

  lemma RemoveAllAbsent<T>(xs: seq<T>, x: T)
    requires x !in xs
    ensures RemoveAll(xs, x) == xs
  {
    FilterAll(xs, y => y != x);
  }

  /** Appending the removed element and removing it again gives the same sequence. */
  lemma {:induction false} RemoveAllSnoc<T>(xs: seq<T>, x: T)
    ensures RemoveAll(xs + [x], x) == RemoveAll(xs, x)
  {
    if xs == [] {
      assert [] + [x] == [x];
    } else {
      assert (xs + [x])[1..] == xs[1..] + [x];
      RemoveAllSnoc(xs[1..], x);
    }
  }

  lemma {:induction false} SubseqDistinct<T>(a: seq<T>, b: seq<T>)
    requires IsSubseq(a, b) && Distinct(b)
    ensures Distinct(a)
    decreases |b|
  {
    if a != [] && b != [] {
      if a[0] == b[0] {
        SubseqDistinct(a[1..], b[1..]);
        SubseqElements(a[1..], b[1..]);
        forall j | 0 < j < |a| ensures a[0] != a[j] {
          assert a[j] == a[1..][j - 1];
          assert a[j] in a[1..];
          assert a[j] in b[1..];
          var i :| 0 <= i < |b[1..]| && b[1..][i] == a[j];
          assert b[i + 1] == a[j];
        }
      } else {
        SubseqDistinct(a, b[1..]);
      }
    }
  }

  lemma {:induction false} SubseqElements<T>(a: seq<T>, b: seq<T>)
    requires IsSubseq(a, b)
    ensures forall x :: x in a ==> x in b
    decreases |b|
  {
    if a != [] && b != [] {
      if a[0] == b[0] {
        SubseqElements(a[1..], b[1..]);
        assert a == [a[0]] + a[1..];
      } else {
        SubseqElements(a, b[1..]);
      }
    }
  }

  lemma RemoveAllDistinct<T>(xs: seq<T>, x: T)
    requires Distinct(xs)
    ensures Distinct(RemoveAll(xs, x))
  {
    SubseqDistinct(RemoveAll(xs, x), xs);
  }

  /**
   * `[...new Set(xs)]`: each element once, at the place of its first
   * occurrence.
   */
  function Dedup<T(==)>(xs: seq<T>): (r: seq<T>)
    ensures Distinct(r)
    ensures forall i :: 0 <= i < |xs| ==> xs[i] in r
    ensures forall i :: 0 <= i < |r| ==> r[i] in xs
    ensures |r| <= |xs|
  {
    if xs == [] then []
    else
      var d := Dedup(xs[..|xs| - 1]);
      var last := xs[|xs| - 1];
      assert xs == xs[..|xs| - 1] + [last];
      if last in d then d else d + [last]
  }

  /** `r` lists its elements in the order of their first occurrences in `xs`. */
  ghost predicate InFirstOccurrenceOrder<T>(r: seq<T>, xs: seq<T>) {
    forall i, j :: 0 <= i < j < |r| && r[i] in xs && r[j] in xs ==> FirstIndex(xs, r[i]) < FirstIndex(xs, r[j])
  }

  /** `[...new Set(xs)]` keeps the order in which the elements first occur in `xs`. */
  lemma {:induction false} DedupOrder<T>(xs: seq<T>)
    ensures InFirstOccurrenceOrder(Dedup(xs), xs)
  {
    if xs != [] {
      var init := xs[..|xs| - 1];
      var last := xs[|xs| - 1];
      assert xs == init + [last];
      DedupOrder(init);
      DedupStepOrder(init, last, Dedup(init));
    }
  }

  lemma DedupStepOrder<T>(init: seq<T>, last: T, d: seq<T>)
    requires forall i :: 0 <= i < |init| ==> init[i] in d
    requires forall i :: 0 <= i < |d| ==> d[i] in init
    requires InFirstOccurrenceOrder(d, init)
    ensures InFirstOccurrenceOrder(if last in d then d else d + [last], init + [last])
  {
    var xs := init + [last];
    var r := if last in d then d else d + [last];
    forall i, j | 0 <= i < j < |r| && r[i] in xs && r[j] in xs
      ensures FirstIndex(xs, r[i]) < FirstIndex(xs, r[j])
    {
      assert r[i] == d[i];
      FirstIndexSnoc(init, last, d[i]);
      if j < |d| {
        assert r[j] == d[j];
        FirstIndexSnoc(init, last, d[j]);
      } else {
        assert r[j] == last && last !in d;
        assert last !in init by {
          forall k | 0 <= k < |init| ensures init[k] != last {
            assert init[k] in d;
          }
        }
        FirstIndexSnocNew(init, last);
      }
    }
  }

  /** The position of the first occurrence of `v` in `xs`. */
  function FirstIndex<T(==)>(xs: seq<T>, v: T): (k: nat)
    requires v in xs
    ensures k < |xs| && xs[k] == v
    ensures forall i :: 0 <= i < k ==> xs[i] != v
  {
    if xs[0] == v then 0 else 1 + FirstIndex(xs[1..], v)
  }

  lemma {:induction false} FirstIndexSnoc<T>(xs: seq<T>, x: T, v: T)
    requires v in xs
    ensures FirstIndex(xs + [x], v) == FirstIndex(xs, v)
  {
    var k := FirstIndex(xs, v);
    var k' := FirstIndex(xs + [x], v);
    assert (xs + [x])[k] == v;
    assert xs[k'] == v by { assert k' <= k; }
  }

  lemma FirstIndexSnocNew<T>(xs: seq<T>, x: T)
    requires x !in xs
    ensures FirstIndex(xs + [x], x) == |xs|
  {
    assert forall i :: 0 <= i < |xs| ==> (xs + [x])[i] == xs[i];
  }

  /** De-duplicating a sequence without repeats changes nothing. */
  lemma {:induction false} DedupDistinct<T>(xs: seq<T>)
    requires Distinct(xs)
    ensures Dedup(xs) == xs
  {
    if xs != [] {
      var init := xs[..|xs| - 1];
      assert Distinct(init);
      DedupDistinct(init);
      assert xs[|xs| - 1] !in init;
      assert xs == init + [xs[|xs| - 1]];
    }
  }

  /** In a sequence without repeats every element occurs at most once. */
  lemma {:induction false} DistinctCounts<T>(a: seq<T>, v: T)
    requires Distinct(a)
    ensures multiset(a)[v] <= 1
  {
    if a != [] {
      var init := a[..|a| - 1];
      assert a == init + [a[|a| - 1]];
      assert Distinct(init);
      DistinctCounts(init, v);
      if a[|a| - 1] == v {
        assert v !in init;
      }
    }
  }

  /** A rearrangement of a sequence without repeats has no repeats. */
  lemma PermutationDistinct<T>(a: seq<T>, b: seq<T>)
    requires multiset(a) == multiset(b) && Distinct(a)
    ensures Distinct(b)
  {
    forall i, j | 0 <= i < j < |b| ensures b[i] != b[j] {
      if b[i] == b[j] {
        var v := b[i];
        assert b == b[..i] + [v] + b[i + 1..j] + [v] + b[j + 1..];
        assert multiset(b)[v] >= 2;
        DistinctCounts(a, v);
        assert false;
      }
    }
  }
}
