/** Sequence helpers that stand for Python list comprehensions, slices and
    first-occurrence de-duplication. */
module Seqs {

  /** `[f(x) for x in s]` */
  function Map<A, B>(f: A -> B, s: seq<A>): (r: seq<B>)
    ensures |r| == |s|
    ensures forall i :: 0 <= i < |s| ==> r[i] == f(s[i])
  {
    if |s| == 0 then [] else [f(s[0])] + Map(f, s[1..])
  }

  /** `[x for x in s if p(x)]`, built left to right as the comprehension does. */
  function Filter<A>(p: A -> bool, s: seq<A>): (r: seq<A>)
    ensures |r| <= |s|
    ensures forall i :: 0 <= i < |r| ==> r[i] in s && p(r[i])
    ensures forall i :: 0 <= i < |s| && p(s[i]) ==> s[i] in r
  {
    if |s| == 0 then []
    else
      var init := s[..|s| - 1];
      var last := s[|s| - 1];
      assert s == init + [last];
      if p(last) then Filter(p, init) + [last] else Filter(p, init)
  }

  /** The positions of `s` whose element satisfies `p`: the number of such
      elements is the cardinality of this set. */
  function Positions<A>(p: A -> bool, s: seq<A>): set<nat> {
    set i: nat | i < |s| && p(s[i])
  }

  lemma {:induction false} FilterAppend<A>(p: A -> bool, a: seq<A>, b: seq<A>)
    ensures Filter(p, a + b) == Filter(p, a) + Filter(p, b)
    decreases |b|
  {
    if |b| == 0 {
      assert a + b == a;
    } else {
      var b' := b[..|b| - 1];
      assert (a + b)[..|a + b| - 1] == a + b';
      assert (a + b)[|a + b| - 1] == b[|b| - 1];
      FilterAppend(p, a, b');
    }
  }

  /** The filtered list holds exactly as many elements as there are positions
      satisfying the predicate. */
  lemma {:induction false} FilterCountsPositions<A>(p: A -> bool, s: seq<A>)
    ensures |Filter(p, s)| == |Positions(p, s)|
    decreases |s|
  {
    if |s| == 0 {
      assert Positions(p, s) == {};
    } else {
      var init := s[..|s| - 1];
      FilterCountsPositions(p, init);
      var n := |s| - 1;
      var before := Positions(p, init);
      var after := if p(s[n]) then before + {n} else before;
      forall i: nat
        ensures i in Positions(p, s) <==> i in after
      {
        if i < n {
          assert s[i] == init[i];
        }
      }
      assert Positions(p, s) == after;
      assert n !in before;
    }
  }

  /** Filtering twice is filtering once by the conjunction. */
  lemma {:induction false} FilterFilter<A>(p: A -> bool, q: A -> bool, both: A -> bool, s: seq<A>)
    requires forall i :: 0 <= i < |s| ==> both(s[i]) == (p(s[i]) && q(s[i]))
    ensures Filter(q, Filter(p, s)) == Filter(both, s)
    decreases |s|
  {
    if |s| > 0 {
      var init := s[..|s| - 1];
      var last := s[|s| - 1];
      FilterFilter(p, q, both, init);
      if p(last) {
        FilterAppend(q, Filter(p, init), [last]);
        assert Filter(q, [last]) == if q(last) then [last] else [] by {
          assert [last][..0] == [];
        }
      }
    }
  }

  /** When every element satisfies exactly one of three predicates, the three
      filtered lists together are as long as the input. */
  lemma {:induction false} FilterPartition3<A>(p: A -> bool, q: A -> bool, r: A -> bool, s: seq<A>)
    requires forall i :: 0 <= i < |s| ==> (p(s[i]) || q(s[i]) || r(s[i]))
    requires forall i :: 0 <= i < |s| ==> !(p(s[i]) && q(s[i])) && !(p(s[i]) && r(s[i])) && !(q(s[i]) && r(s[i]))
    ensures |Filter(p, s)| + |Filter(q, s)| + |Filter(r, s)| == |s|
    decreases |s|
  {
    if |s| > 0 {
      FilterPartition3(p, q, r, s[..|s| - 1]);
    }
  }

  /** Python's `s[:n]` for a non-negative `n`. */
  function Take<A>(s: seq<A>, n: nat): (r: seq<A>)
    ensures |r| == if n <= |s| then n else |s|
    ensures forall i :: 0 <= i < |r| ==> r[i] == s[i]
  {
    if n <= |s| then s[..n] else s
  }

  predicate NoDuplicates<A(==)>(s: seq<A>) {
    forall i, j :: 0 <= i < j < |s| ==> s[i] != s[j]
  }

  /** Index of the first occurrence of `x` in `s`. */
  function FirstIndex<A(==)>(s: seq<A>, x: A): (i: nat)
    requires x in s
    ensures i < |s| && s[i] == x
    ensures forall j :: 0 <= j < i ==> s[j] != x
  {
    if s[0] == x then 0 else 1 + FirstIndex(s[1..], x)
  }

  /** Index of the last occurrence of `x` in `s`. */
  function LastIndex<A(==)>(s: seq<A>, x: A): (i: nat)
    requires x in s
    ensures i < |s| && s[i] == x
    ensures forall j :: i < j < |s| ==> s[j] != x
  {
    if s[|s| - 1] == x then |s| - 1
    else
      assert x in s[..|s| - 1] by {
        var k :| 0 <= k < |s| && s[k] == x;
        assert s[..|s| - 1][k] == x;
      }
      LastIndex(s[..|s| - 1], x)
  }

  /** The distinct elements of `s`, each kept at the position where it first
      occurs (the key order of a Python dict filled from `s`). */
  function Distinct<A(==)>(s: seq<A>): (r: seq<A>)
    ensures forall i :: 0 <= i < |r| ==> r[i] in s
    ensures forall i :: 0 <= i < |s| ==> s[i] in r
    ensures NoDuplicates(r)
  {
    if |s| == 0 then []
    else
      var init := s[..|s| - 1];
      var last := s[|s| - 1];
      assert s == init + [last];
      var d := Distinct(init);
      if last in d then d else d + [last]
  }

  /** Appending an element leaves the first occurrence of an element already present where it was. */
  lemma FirstIndexExtend<A>(s: seq<A>, x: A, y: A)
    requires x in s
    ensures x in s + [y] && FirstIndex(s + [y], x) == FirstIndex(s, x)
  {
    var i := FirstIndex(s, x);
    assert (s + [y])[i] == x;
    var k := FirstIndex(s + [y], x);
    assert k <= i;
    assert s[k] == (s + [y])[k];
  }

  /** The distinct elements appear in the order of their first occurrence. */
  lemma DistinctFirstOccurrenceOrder<A>(s: seq<A>)
    ensures var d := Distinct(s);
      forall i, j :: 0 <= i < j < |d| ==> FirstIndex(s, d[i]) < FirstIndex(s, d[j])
  {
    var d := Distinct(s);
    forall i, j | 0 <= i < j < |d|
      ensures FirstIndex(s, d[i]) < FirstIndex(s, d[j])
    {
      DistinctOrderAt(s, i, j);
    }
  }

  lemma {:induction false} DistinctOrderAt<A>(s: seq<A>, i: nat, j: nat)
    requires i < j < |Distinct(s)|
    ensures FirstIndex(s, Distinct(s)[i]) < FirstIndex(s, Distinct(s)[j])
    decreases |s|
  {
    var init := s[..|s| - 1];
    var last := s[|s| - 1];
    assert s == init + [last];
    var d0 := Distinct(init);
    var d := Distinct(s);
    assert d == if last in d0 then d0 else d0 + [last];
    assert d[i] == d0[i] && d0[i] in init;
    FirstIndexExtend(init, d0[i], last);
    if j < |d0| {
      assert d[j] == d0[j] && d0[j] in init;
      FirstIndexExtend(init, d0[j], last);
      DistinctOrderAt(init, i, j);
    } else {
      assert d[j] == last && last !in init;
      var k := FirstIndex(s, last);
      assert k == |init|;
    }
  }
}
