/** Order-preserving selection from a sequence (a Python list comprehension with an `if`). */
module Seqs {

  /** The elements of `s` that satisfy `p`, in their original order. */
  function Filter<T(==)>(s: seq<T>, p: T -> bool): (r: seq<T>)
    ensures |r| <= |s|
    ensures forall i :: 0 <= i < |r| ==> r[i] in s && p(r[i])
    ensures forall i :: 0 <= i < |s| && p(s[i]) ==> s[i] in r
    decreases |s|
  {
    if s == [] then []
    else Filter(s[..|s| - 1], p) + (if p(s[|s| - 1]) then [s[|s| - 1]] else [])
  }

  /** `a` can be obtained from `b` by deleting elements. */
  predicate Subseq<T(==)>(a: seq<T>, b: seq<T>)
    decreases |b|
  {
    if a == [] then true
    else if b == [] then false
    else if a[|a| - 1] == b[|b| - 1] then Subseq(a[..|a| - 1], b[..|b| - 1])
    else Subseq(a, b[..|b| - 1])
  }

  lemma {:induction false} SubseqRefl<T>(a: seq<T>)
    ensures Subseq(a, a)
    decreases |a|
  {
    if a != [] {
      SubseqRefl(a[..|a| - 1]);
    }
  }

  /** Appending the same element to both sides keeps the relation. */
  lemma SubseqSnoc<T>(a: seq<T>, b: seq<T>, x: T)
    requires Subseq(a, b)
    ensures Subseq(a + [x], b + [x])
  {
    assert (a + [x])[..|a|] == a;
    assert (b + [x])[..|b|] == b;
  }

  /** Appending an element to the right-hand side only keeps the relation. */
  lemma {:induction false} SubseqExtend<T>(a: seq<T>, b: seq<T>, x: T)
    requires Subseq(a, b)
    ensures Subseq(a, b + [x])
    decreases |b|, 1
  {
    assert (b + [x])[..|b|] == b;
    if a != [] && a[|a| - 1] == x {
      // matched greedily against the new last element
      SubseqDropLast(a, b);
    }
  }

  /** Dropping the last element of the left-hand side keeps the relation. */
  lemma {:induction false} SubseqDropLast<T>(a: seq<T>, b: seq<T>)
    requires a != [] && Subseq(a, b)
    ensures Subseq(a[..|a| - 1], b)
    decreases |b|, 0
  {
    var a' := a[..|a| - 1];
    if a' == [] {
    } else if a[|a| - 1] == b[|b| - 1] {
      SubseqExtend(a', b[..|b| - 1], b[|b| - 1]);
      assert b[..|b| - 1] + [b[|b| - 1]] == b;
    } else {
      SubseqDropLast(a, b[..|b| - 1]);
      SubseqExtend(a', b[..|b| - 1], b[|b| - 1]);
      assert b[..|b| - 1] + [b[|b| - 1]] == b;
    }
  }

  /** A filter result is a subsequence of its input. */
  lemma {:induction false} FilterSubseq<T>(s: seq<T>, p: T -> bool)
    ensures Subseq(Filter(s, p), s)
    decreases |s|
  {
    if s != [] {
      var init, last := s[..|s| - 1], s[|s| - 1];
      FilterSubseq(init, p);
      assert init + [last] == s;
      if p(last) {
        assert Filter(s, p) == Filter(init, p) + [last];
        SubseqSnoc(Filter(init, p), init, last);
      } else {
        assert Filter(s, p) == Filter(init, p);
        SubseqExtend(Filter(init, p), init, last);
      }
    }
  }

  /** How many times `y` occurs in `s`. */
  function Ocurrencias<T(==)>(s: seq<T>, y: T): nat
    decreases |s|
  {
    if s == [] then 0 else Ocurrencias(s[..|s| - 1], y) + (if s[|s| - 1] == y then 1 else 0)
  }

  /** Every element satisfying `p` is kept as many times as it occurs in `s`; no other element is kept. */
  lemma {:induction false} FilterCount<T>(s: seq<T>, p: T -> bool)
    ensures forall y :: Ocurrencias(Filter(s, p), y) == if p(y) then Ocurrencias(s, y) else 0
    decreases |s|
  {
    if s != [] {
      var init, last := s[..|s| - 1], s[|s| - 1];
      FilterCount(init, p);
      var f := Filter(s, p);
      if p(last) {
        assert f == Filter(init, p) + [last];
        assert f[..|f| - 1] == Filter(init, p);
      } else {
        assert f == Filter(init, p);
      }
    }
  }

  /** A weaker predicate keeps at least the elements a stronger one keeps, in the same order. */
  lemma {:induction false} FilterMonotone<T>(s: seq<T>, p: T -> bool, q: T -> bool)
    requires forall i :: 0 <= i < |s| && p(s[i]) ==> q(s[i])
    ensures Subseq(Filter(s, p), Filter(s, q))
    decreases |s|
  {
    if s != [] {
      var init, last := s[..|s| - 1], s[|s| - 1];
      FilterMonotone(init, p, q);
      if p(last) {
        assert Filter(s, p) == Filter(init, p) + [last];
        assert Filter(s, q) == Filter(init, q) + [last];
        SubseqSnoc(Filter(init, p), Filter(init, q), last);
      } else if q(last) {
        assert Filter(s, p) == Filter(init, p);
        assert Filter(s, q) == Filter(init, q) + [last];
        SubseqExtend(Filter(init, p), Filter(init, q), last);
      } else {
        assert Filter(s, p) == Filter(init, p);
        assert Filter(s, q) == Filter(init, q);
      }
    }
  }

  /** Two predicates that agree on the elements of `s` select the same elements. */
  lemma {:induction false} FilterCongruent<T>(s: seq<T>, p: T -> bool, q: T -> bool)
    requires forall i :: 0 <= i < |s| ==> (p(s[i]) <==> q(s[i]))
    ensures Filter(s, p) == Filter(s, q)
    decreases |s|
  {
    if s != [] {
      FilterCongruent(s[..|s| - 1], p, q);
    }
  }

  /** Filtering twice is filtering once by the conjunction. */
  lemma {:induction false} FilterFilter<T>(s: seq<T>, p: T -> bool, q: T -> bool, pq: T -> bool)
    requires forall i :: 0 <= i < |s| ==> (pq(s[i]) <==> p(s[i]) && q(s[i]))
    ensures Filter(Filter(s, p), q) == Filter(s, pq)
    decreases |s|
  {
    if s != [] {
      var init, last := s[..|s| - 1], s[|s| - 1];
      FilterFilter(init, p, q, pq);
      var fp := Filter(init, p);
      assert Filter(s, pq) == Filter(init, pq) + (if pq(last) then [last] else []);
      if p(last) {
        assert Filter(s, p) == fp + [last];
        assert (fp + [last])[..|fp|] == fp;
        assert Filter(fp + [last], q) == Filter(fp, q) + (if q(last) then [last] else []);
      } else {
        assert Filter(s, p) == fp;
      }
    }
  }

  /** A predicate every element satisfies keeps the whole sequence. */
  lemma {:induction false} FilterAll<T>(s: seq<T>, p: T -> bool)
    requires forall i :: 0 <= i < |s| ==> p(s[i])
    ensures Filter(s, p) == s
    decreases |s|
  {
    if s != [] {
      var init := s[..|s| - 1];
      assert forall i :: 0 <= i < |init| ==> init[i] == s[i];
      FilterAll(init, p);
      assert p(s[|s| - 1]);
      assert s == init + [s[|s| - 1]];
    }
  }

  /** Only the empty sequence is a subsequence of the empty sequence. */
  lemma SubseqEmpty<T>(a: seq<T>)
    requires Subseq(a, [])
    ensures a == []
  {
  }

  /** A stronger predicate than one that keeps nothing keeps nothing either. */
  lemma FilterEmpty<T>(s: seq<T>, p: T -> bool, q: T -> bool)
    requires Filter(s, p) == [] && forall i :: 0 <= i < |s| && q(s[i]) ==> p(s[i])
    ensures Filter(s, q) == []
  {
    FilterMonotone(s, q, p);
    SubseqEmpty(Filter(s, q));
  }

  /** Membership in `m`, as a predicate. */
  function Miembro<T(==)>(m: seq<T>): T -> bool
  {
    x => x in m
  }

  /** `[x for x in l if x in m]`. */
  function Retener<T(==)>(l: seq<T>, m: seq<T>): (r: seq<T>)
    ensures forall i :: 0 <= i < |r| ==> r[i] in l && r[i] in m
    ensures forall i :: 0 <= i < |l| && l[i] in m ==> l[i] in r
  {
    Filter(l, Miembro(m))
  }

  /**
   * Keeping, among the elements of `s` that satisfy `p`, those that occur in a list holding
   * exactly the elements of `s` that satisfy `q`, is filtering `s` by the conjunction.
   */
  lemma RetenerFiltro<T>(s: seq<T>, p: T -> bool, m: seq<T>, q: T -> bool, pq: T -> bool)
    requires forall i :: 0 <= i < |s| ==> (s[i] in m <==> q(s[i]))
    requires forall i :: 0 <= i < |s| ==> (pq(s[i]) <==> p(s[i]) && q(s[i]))
    ensures Retener(Filter(s, p), m) == Filter(s, pq)
  {
    var fp := Filter(s, p);
    forall i | 0 <= i < |fp|
      ensures Miembro(m)(fp[i]) <==> q(fp[i])
    {
      var j :| 0 <= j < |s| && s[j] == fp[i];
    }
    FilterCongruent(fp, Miembro(m), q);
    FilterFilter(s, p, q, pq);
  }

  /** Extending the input by one element extends the filter result by at most that element. */
  lemma FilterSnoc<T>(s: seq<T>, x: T, p: T -> bool)
    ensures Filter(s + [x], p) == Filter(s, p) + (if p(x) then [x] else [])
  {
    assert (s + [x])[..|s|] == s;
  }
}
