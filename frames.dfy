/**
 * Boolean masks and `df[mask]` row selection. A mask is built from column
 * comparisons joined by `&` and `|`; two more masks select the rows carrying a
 * given derived label, which is how a group of the label columns is read.
 */
module Frames {
  import opened Table
  import opened Labels

  datatype Mask =
    | AtLeast(col: Column, bound: int)
    | AtMost(col: Column, bound: int)
    | Between(col: Column, lo: int, hi: int)
    | Equals(col: Column, value: int)
    | Both(left: Mask, right: Mask)
    | Either(left: Mask, right: Mask)
    | ClusterIs(cluster: TimeCluster)
    | DominanceIs(dominance: Dominance)

  /** Whether row `r` satisfies mask `m`; `Series.between` is inclusive at both ends. */
  predicate Keep(m: Mask, r: Record)
  {
    match m
    case AtLeast(c, b) => Get(r, c) >= b
    case AtMost(c, b) => Get(r, c) <= b
    case Between(c, lo, hi) => lo <= Get(r, c) <= hi
    case Equals(c, v) => Get(r, c) == v
    case Both(a, b) => Keep(a, r) && Keep(b, r)
    case Either(a, b) => Keep(a, r) || Keep(b, r)
    case ClusterIs(k) => HourCluster(r.hour) == k
    case DominanceIs(d) => UserDominance(r) == d
  }

  /** `df[mask]`: the rows that satisfy the mask. */
  function Filter(t: seq<Record>, m: Mask): (f: seq<Record>)
    ensures |f| <= |t|
    ensures forall x :: x in f <==> x in t && Keep(m, x)
  {
    if t == [] then []
    else if Keep(m, t[0]) then [t[0]] + Filter(t[1..], m)
    else Filter(t[1..], m)
  }

  /** `a` can be obtained from `b` by deleting rows, the rest staying in order. */
  predicate IsSubsequence(a: seq<Record>, b: seq<Record>)
    decreases |b|
  {
    a == [] || (b != [] && ((a[0] == b[0] && IsSubsequence(a[1..], b[1..])) || IsSubsequence(a, b[1..])))
  }

  /** The first step of a filter, with its effect on sizes and column sums. */
  lemma FilterCons(t: seq<Record>, m: Mask, c: Column)
    requires t != []
    ensures Filter(t, m) == (if Keep(m, t[0]) then [t[0]] else []) + Filter(t[1..], m)
    ensures |Filter(t, m)| == (if Keep(m, t[0]) then 1 else 0) + |Filter(t[1..], m)|
    ensures Sum(Filter(t, m), c) == (if Keep(m, t[0]) then Get(t[0], c) else 0) + Sum(Filter(t[1..], m), c)
  {
  }

  /** The sizes and column sums of a filter, one row at a time. */
  lemma FilterSizeSum(t: seq<Record>, m: Mask, c: Column)
    requires t != []
    ensures |Filter(t, m)| == (if Keep(m, t[0]) then 1 else 0) + |Filter(t[1..], m)|
    ensures Sum(Filter(t, m), c) == (if Keep(m, t[0]) then Get(t[0], c) else 0) + Sum(Filter(t[1..], m), c)
  {
  }

  /** The filter keeps the rows in their original order. */
  lemma {:induction false} FilterIsSubsequence(t: seq<Record>, m: Mask)
    ensures IsSubsequence(Filter(t, m), t)
  {
    if t != [] {
      FilterIsSubsequence(t[1..], m);
      if Keep(m, t[0]) {
        assert Filter(t, m)[1..] == Filter(t[1..], m);
      }
    }
  }

  /** Each kept row occurs as often as in the table; each other row not at all. */
  lemma {:induction false} FilterMultiplicity(t: seq<Record>, m: Mask, x: Record)
    ensures multiset(Filter(t, m))[x] == if Keep(m, x) then multiset(t)[x] else 0
  {
    if t != [] {
      assert t == [t[0]] + t[1..];
      FilterMultiplicity(t[1..], m, x);
    }
  }

  /** The filter of a concatenation is the concatenation of the filters. */
  lemma {:induction false} FilterConcat(a: seq<Record>, b: seq<Record>, m: Mask)
    ensures Filter(a + b, m) == Filter(a, m) + Filter(b, m)
  {
    if a == [] {
      assert a + b == b;
    } else {
      assert (a + b)[0] == a[0] && (a + b)[1..] == a[1..] + b;
      FilterConcat(a[1..], b, m);
    }
  }

  /** A filter that keeps every row returns the table unchanged. */
  lemma {:induction false} FilterKeepsAll(t: seq<Record>, m: Mask)
    requires forall i :: 0 <= i < |t| ==> Keep(m, t[i])
    ensures Filter(t, m) == t
  {
    if t != [] {
      FilterKeepsAll(t[1..], m);
    }
  }

  /** Two masks that agree on every row select the same rows. */
  lemma {:induction false} FilterSameMask(t: seq<Record>, a: Mask, b: Mask)
    requires forall r: Record :: Keep(a, r) == Keep(b, r)
    ensures Filter(t, a) == Filter(t, b)
  {
    if t != [] {
      FilterSameMask(t[1..], a, b);
    }
  }

  /** Filtering twice is filtering once by both masks (`df[a][b] == df[a & b]`). */
  lemma {:induction false} FilterCompose(t: seq<Record>, a: Mask, b: Mask)
    ensures Filter(Filter(t, a), b) == Filter(t, Both(a, b))
  {
    if t != [] {
      FilterCompose(t[1..], a, b);
      if Keep(a, t[0]) {
        assert Filter(t, a)[0] == t[0] && Filter(t, a)[1..] == Filter(t[1..], a);
      }
    }
  }

  /** A mask `a | b` of two exclusive masks selects as many rows, and the same column sum, as `a` and `b` together. */
  lemma {:induction false} FilterDisjointEither(t: seq<Record>, a: Mask, b: Mask, c: Column)
    requires forall i :: 0 <= i < |t| ==> !(Keep(a, t[i]) && Keep(b, t[i]))
    ensures |Filter(t, Either(a, b))| == |Filter(t, a)| + |Filter(t, b)|
    ensures Sum(Filter(t, Either(a, b)), c) == Sum(Filter(t, a), c) + Sum(Filter(t, b), c)
  {
    if t != [] {
      assert !(Keep(a, t[0]) && Keep(b, t[0]));
      assert forall i :: 0 <= i < |t[1..]| ==> t[1..][i] == t[i + 1];
      FilterDisjointEither(t[1..], a, b, c);
      FilterSizeSum(t, a, c);
      FilterSizeSum(t, b, c);
      FilterSizeSum(t, Either(a, b), c);
    }
  }
}
