/**
 * Generic list operations that the handlers of the application use over and
 * over: JavaScript's `Array.prototype.filter`, a `map` that rewrites only the
 * elements matching a predicate, the number `reduce` sum, and the notion of
 * an order-preserving subsequence that a filter result satisfies.
 */
module Seqs {

  import opened Wrappers

  /** `r` can be obtained from `s` by deleting elements, keeping the order. */
  predicate IsSubsequence<T(==)>(r: seq<T>, s: seq<T>)
    decreases |s|
  {
    if r == [] then true
    else if s == [] then false
    else if r[0] == s[0] then IsSubsequence(r[1..], s[1..])
    else IsSubsequence(r, s[1..])
  }

  /** `xs.filter(p)`: the elements of `s` satisfying `p`, in their original order. */
  function Filter<T>(s: seq<T>, p: T -> bool): (r: seq<T>)
    ensures |r| <= |s|
    ensures forall i :: 0 <= i < |r| ==> r[i] in s && p(r[i])
    ensures forall i :: 0 <= i < |s| && p(s[i]) ==> s[i] in r
    decreases |s|
  {
    if s == [] then []
    else if p(s[0]) then [s[0]] + Filter(s[1..], p)
    else Filter(s[1..], p)
  }

  lemma {:induction false} FilterIsSubsequence<T>(s: seq<T>, p: T -> bool)
    ensures IsSubsequence(Filter(s, p), s)
    decreases |s|
  {
    if s != [] {
      FilterIsSubsequence(s[1..], p);
      var r := Filter(s, p);
      if p(s[0]) {
        assert r[0] == s[0] && r[1..] == Filter(s[1..], p);
      } else if r != [] {
        // every element of r satisfies p, and s[0] does not
        assert p(r[0]) && r[0] != s[0];
      }
    }
  }

  /** A filter keeps every copy of an element that passes and no copy of one that does not. */
  lemma {:induction false} FilterCount<T>(s: seq<T>, p: T -> bool)
    ensures forall x :: multiset(Filter(s, p))[x] == if p(x) then multiset(s)[x] else 0
    decreases |s|
  {
    if s != [] {
      FilterCount(s[1..], p);
      assert s == [s[0]] + s[1..];
    }
  }

  /** A filter whose predicate holds everywhere on `s` keeps all of `s`. */
  lemma {:induction false} FilterAll<T>(s: seq<T>, p: T -> bool)
    requires forall i :: 0 <= i < |s| ==> p(s[i])
    ensures Filter(s, p) == s
    decreases |s|
  {
    if s != [] {
      FilterAll(s[1..], p);
    }
  }

  /** A filter no element passes is empty. */
  lemma {:induction false} FilterNone<T>(s: seq<T>, p: T -> bool)
    requires forall i :: 0 <= i < |s| ==> !p(s[i])
    ensures Filter(s, p) == []
    decreases |s|
  {
    if s != [] {
      FilterNone(s[1..], p);
    }
  }

  /** When exactly the element at `i` passes, the filter keeps that element alone. */
  lemma {:induction false} FilterUnique<T>(s: seq<T>, p: T -> bool, i: int)
    requires 0 <= i < |s| && p(s[i])
    requires forall j :: 0 <= j < |s| && j != i ==> !p(s[j])
    ensures Filter(s, p) == [s[i]]
    decreases |s|
  {
    if i == 0 {
      assert forall j :: 0 <= j < |s[1..]| ==> !p(s[1..][j]) by {
        forall j | 0 <= j < |s[1..]| ensures !p(s[1..][j]) {
          assert s[1..][j] == s[j + 1];
        }
      }
      FilterNone(s[1..], p);
    } else {
      FilterUnique(s[1..], p, i - 1);
    }
  }

  /** Two passing positions make a filter result of at least two elements. */
  lemma {:induction false} FilterTwo<T>(s: seq<T>, p: T -> bool, i: int, j: int)
    requires 0 <= i < j < |s| && p(s[i]) && p(s[j])
    ensures |Filter(s, p)| >= 2
    decreases |s|
  {
    if i == 0 {
      assert s[1..][j - 1] == s[j];
      assert s[j] in Filter(s[1..], p);
    } else {
      FilterTwo(s[1..], p, i - 1, j - 1);
    }
  }

  /**
   * `.single()` on a query: the row when exactly one row satisfies the
   * condition, and nothing when none or several do.
   */
  function Single<T>(s: seq<T>, p: T -> bool): (r: Option<T>)
    ensures r.Some? <==> |Filter(s, p)| == 1
    ensures r.Some? ==> r.value in s && p(r.value)
  {
    var m := Filter(s, p);
    if |m| == 1 then Some(m[0]) else None
  }

  /** A condition exactly one row meets yields that row. */
  lemma SingleOfUnique<T>(s: seq<T>, p: T -> bool, i: int)
    requires 0 <= i < |s| && p(s[i])
    requires forall j :: 0 <= j < |s| && j != i ==> !p(s[j])
    ensures Single(s, p) == Some(s[i])
  {
    FilterUnique(s, p, i);
  }

  /** A condition no row meets yields nothing. */
  lemma SingleOfNone<T>(s: seq<T>, p: T -> bool)
    requires forall i :: 0 <= i < |s| ==> !p(s[i])
    ensures Single(s, p) == None
  {
    FilterNone(s, p);
  }

  /** A condition two rows meet yields nothing either. */
  lemma SingleOfSeveral<T>(s: seq<T>, p: T -> bool, i: int, j: int)
    requires 0 <= i < j < |s| && p(s[i]) && p(s[j])
    ensures Single(s, p) == None
  {
    FilterTwo(s, p, i, j);
  }

  /** Two predicates that agree on the elements of `s` filter it the same way. */
  lemma {:induction false} FilterExt<T>(s: seq<T>, p: T -> bool, q: T -> bool)
    requires forall i :: 0 <= i < |s| ==> p(s[i]) == q(s[i])
    ensures Filter(s, p) == Filter(s, q)
    decreases |s|
  {
    if s != [] {
      FilterExt(s[1..], p, q);
    }
  }

  /** Filtering by `p` and then by `q` equals one filter by the conjunction `pq`. */
  lemma {:induction false} FilterCompose<T>(s: seq<T>, p: T -> bool, q: T -> bool, pq: T -> bool)
    requires forall i :: 0 <= i < |s| ==> pq(s[i]) == (p(s[i]) && q(s[i]))
    ensures Filter(Filter(s, p), q) == Filter(s, pq)
    decreases |s|
  {
    if s != [] {
      FilterCompose(s[1..], p, q, pq);
    }
  }

  /** Filters by two exclusive predicates together hold what the filter by their disjunction `pq` holds. */
  lemma {:induction false} FilterUnion<T>(s: seq<T>, p: T -> bool, q: T -> bool, pq: T -> bool)
    requires forall i :: 0 <= i < |s| ==> pq(s[i]) == (p(s[i]) || q(s[i])) && !(p(s[i]) && q(s[i]))
    ensures multiset(Filter(s, p)) + multiset(Filter(s, q)) == multiset(Filter(s, pq))
    decreases |s|
  {
    if s != [] {
      FilterUnion(s[1..], p, q, pq);
    }
  }

  /**
   * One step of a filter pipeline: `acc` holds `s` filtered by `p`; narrowing
   * it by `q` when the step is `active`, and leaving it alone otherwise, gives
   * `s` filtered by `pq`, the conjunction of `p` and the step's condition.
   */
  lemma FilterNarrow<T>(s: seq<T>, acc: seq<T>, p: T -> bool, active: bool, q: T -> bool, pq: T -> bool)
    requires acc == Filter(s, p)
    requires forall i :: 0 <= i < |s| ==> pq(s[i]) == (p(s[i]) && (!active || q(s[i])))
    ensures (if active then Filter(acc, q) else acc) == Filter(s, pq)
  {
    if active {
      FilterCompose(s, p, q, pq);
    } else {
      FilterExt(s, p, pq);
    }
  }

  /** Filtering distributes over concatenation. */
  lemma {:induction false} FilterAppend<T>(a: seq<T>, b: seq<T>, p: T -> bool)
    ensures Filter(a + b, p) == Filter(a, p) + Filter(b, p)
    decreases |a|
  {
    if a != [] {
      assert (a + b)[1..] == a[1..] + b;
      FilterAppend(a[1..], b, p);
    } else {
      assert a + b == b;
    }
  }

  /**
   * `xs.map(x => p(x) ? f(x) : x)`: the elements matching `p` are rewritten by
   * `f`, every other element, the length and the order stay as they were.
   */
  function MapWhere<T>(s: seq<T>, p: T -> bool, f: T -> T): (r: seq<T>)
    ensures |r| == |s|
    ensures forall i :: 0 <= i < |s| && p(s[i]) ==> r[i] == f(s[i])
    ensures forall i :: 0 <= i < |s| && !p(s[i]) ==> r[i] == s[i]
  {
    seq(|s|, i requires 0 <= i < |s| => if p(s[i]) then f(s[i]) else s[i])
  }

  /** `xs.reduce((sum, x) => sum + w(x), 0)`. */
  function Sum<T>(s: seq<T>, w: T -> int): int
    decreases |s|
  {
    if s == [] then 0 else Sum(s[..|s| - 1], w) + w(s[|s| - 1])
  }

  lemma {:induction false} SumAppend<T>(a: seq<T>, b: seq<T>, w: T -> int)
    ensures Sum(a + b, w) == Sum(a, w) + Sum(b, w)
    decreases |b|
  {
    if b == [] {
      assert a + b == a;
    } else {
      assert (a + b)[..|a + b| - 1] == a + b[..|b| - 1];
      SumAppend(a, b[..|b| - 1], w);
    }
  }

  /** Adding two weight functions pointwise adds their sums. */
  lemma {:induction false} SumAdd<T>(s: seq<T>, w: T -> int, v: T -> int, wv: T -> int)
    requires forall i :: 0 <= i < |s| ==> wv(s[i]) == w(s[i]) + v(s[i])
    ensures Sum(s, wv) == Sum(s, w) + Sum(s, v)
    decreases |s|
  {
    if s != [] {
      SumAdd(s[..|s| - 1], w, v, wv);
    }
  }

  /** `w` where `p` holds, zero elsewhere. */
  function Masked<T>(p: T -> bool, w: T -> int): T -> int {
    x => if p(x) then w(x) else 0
  }

  /** Past the first element, `[x] + s` is `s` shifted by one. */
  lemma ConsIndex<T>(x: T, s: seq<T>)
    ensures |[x] + s| == |s| + 1 && ([x] + s)[0] == x
    ensures forall i :: 1 <= i <= |s| ==> ([x] + s)[i] == s[i - 1]
  {
  }

  /** Summing over a filter is summing the masked weights over the whole list. */
  lemma {:induction false} SumFilter<T>(s: seq<T>, p: T -> bool, w: T -> int)
    ensures Sum(Filter(s, p), w) == Sum(s, Masked(p, w))
    decreases |s|
  {
    if s != [] {
      var init, last := s[..|s| - 1], s[|s| - 1];
      var fi, fl := Filter(init, p), Filter([last], p);
      assert Filter(s, p) == fi + fl by {
        assert s == init + [last];
        FilterAppend(init, [last], p);
      }
      SumAppend(fi, fl, w);
      SumFilter(init, p, w);
      assert Sum(fl, w) == Masked(p, w)(last) by {
        assert [last][1..] == [];
        assert [last][..0] == [];
      }
    }
  }

  /** A sum of weights that are all zero is zero. */
  lemma {:induction false} SumZero<T>(s: seq<T>, w: T -> int)
    requires forall i :: 0 <= i < |s| ==> w(s[i]) == 0
    ensures Sum(s, w) == 0
    decreases |s|
  {
    if s != [] {
      SumZero(s[..|s| - 1], w);
    }
  }

  /** Weights that agree on `s` give the same sum. */
  lemma {:induction false} SumExt<T>(s: seq<T>, w: T -> int, v: T -> int)
    requires forall i :: 0 <= i < |s| ==> w(s[i]) == v(s[i])
    ensures Sum(s, w) == Sum(s, v)
    decreases |s|
  {
    if s != [] {
      SumExt(s[..|s| - 1], w, v);
    }
  }
}
