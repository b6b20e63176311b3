/**
 * Per-row dense ranking as `np.unique(row, return_inverse=True)[1]` computes
 * it: the distinct values are sorted, and each entry is replaced by the
 * position of its value in that sorted list. Tied values share a rank. The
 * values are compared only, so they are modelled as `real`s.
 */
module Ranking {

  predicate StrictlyIncreasing(u: seq<real>) {
    forall a, b :: 0 <= a < b < |u| ==> u[a] < u[b]
  }

  /** The smallest value of a non-empty row. */
  function Min(s: seq<real>): (m: real)
    requires |s| > 0
    ensures m in s && forall x :: x in s ==> m <= x
    decreases |s|
  {
    if |s| == 1 then s[0]
    else
      var rest := Min(s[1..]);
      assert forall x :: x in s ==> x == s[0] || x in s[1..];
      if s[0] <= rest then s[0] else rest
  }

  /** The entries of `s` greater than `m`, in order. */
  function Above(s: seq<real>, m: real): (r: seq<real>)
    ensures forall x :: x in r <==> x in s && x > m
    ensures |r| <= |s| && (m in s ==> |r| < |s|)
    decreases |s|
  {
    if |s| == 0 then []
    else
      assert forall x :: x in s ==> x == s[0] || x in s[1..];
      (if s[0] > m then [s[0]] else []) + Above(s[1..], m)
  }

  /** The first result of `np.unique`: the distinct values, ascending. */
  function Unique(s: seq<real>): (u: seq<real>)
    ensures StrictlyIncreasing(u)
    ensures forall x :: x in u <==> x in s
    decreases |s|
  {
    if |s| == 0 then []
    else
      var m := Min(s);
      var rest := Unique(Above(s, m));
      assert forall x :: x in rest ==> m < x;
      [m] + rest
  }

  /** Position of a value in a list that holds it. */
  function IndexOf(u: seq<real>, v: real): (i: nat)
    requires v in u
    ensures i < |u| && u[i] == v
    decreases |u|
  {
    if u[0] == v then 0 else 1 + IndexOf(u[1..], v)
  }

  /** The inverse result of `np.unique`: each entry's position among the sorted distinct values. */
  function DenseRank(row: seq<real>): (r: seq<nat>)
    ensures |r| == |row|
  {
    var u := Unique(row);
    seq(|row|, j requires 0 <= j < |row| => IndexOf(u, row[j]))
  }

  // ---------------------------------------------------------------------------
  // The reference definition: a rank is a count of distinct smaller values

  /** The distinct values of a row. */
  function Values(row: seq<real>): set<real> {
    set x | x in row
  }

  /** The distinct values of a row that are smaller than `v`. */
  function ValuesBelow(row: seq<real>, v: real): set<real> {
    set x | x in row && x < v
  }

  /** No value occurs twice. */
  predicate Distinct(u: seq<real>) {
    forall a, b :: 0 <= a < b < |u| ==> u[a] != u[b]
  }

  /** A list without repeated values holds as many distinct values as entries. */
  lemma {:induction false} DistinctCount(u: seq<real>)
    requires Distinct(u)
    ensures |Values(u)| == |u|
    decreases |u|
  {
    if |u| > 0 {
      var p := u[..|u| - 1];
      assert Values(u) == Values(p) + {u[|u| - 1]};
      assert u[|u| - 1] !in Values(p);
      DistinctCount(p);
    }
  }

  /** In an ascending list of a row's distinct values, the entries before `i` are the values below `u[i]`. */
  lemma SortedPrefixBelow(row: seq<real>, u: seq<real>, i: nat)
    requires StrictlyIncreasing(u) && i < |u|
    requires forall x :: x in u <==> x in row
    ensures ValuesBelow(row, u[i]) == Values(u[..i])
    ensures Distinct(u[..i])
  {
    forall x | x in ValuesBelow(row, u[i]) ensures x in Values(u[..i]) {
      var a :| 0 <= a < |u| && u[a] == x;
      assert a < i;
      assert u[..i][a] == x;
    }
    forall x | x in Values(u[..i]) ensures x in ValuesBelow(row, u[i]) {
      var a :| 0 <= a < i && u[..i][a] == x;
      assert u[a] == x && u[a] < u[i];
    }
  }

  /** `DenseRank(row)[j]` is the number of distinct values of `row` below `row[j]`. */
  lemma DenseRankCountsSmallerValues(row: seq<real>, j: nat)
    requires j < |row|
    ensures DenseRank(row)[j] == |ValuesBelow(row, row[j])|
  {
    var u := Unique(row);
    var i := IndexOf(u, row[j]);
    assert DenseRank(row)[j] == i;
    SortedPrefixBelow(row, u, i);
    DistinctCount(u[..i]);
  }

  /** Tied values share a rank. */
  lemma RankTie(row: seq<real>, a: nat, b: nat)
    requires a < |row| && b < |row| && row[a] == row[b]
    ensures DenseRank(row)[a] == DenseRank(row)[b]
  {
  }

  lemma ProperSubsetSmaller(A: set<real>, B: set<real>, x: real)
    requires A <= B && x in B && x !in A
    ensures |A| < |B|
  {
    assert A + (B - A) == B;
    assert x in B - A;
  }

  /** Ranks order the entries as their values do, in both directions. */
  lemma RankOrder(row: seq<real>, a: nat, b: nat)
    requires a < |row| && b < |row|
    ensures row[a] < row[b] <==> DenseRank(row)[a] < DenseRank(row)[b]
    ensures row[a] == row[b] <==> DenseRank(row)[a] == DenseRank(row)[b]
  {
    DenseRankCountsSmallerValues(row, a);
    DenseRankCountsSmallerValues(row, b);
    if row[a] < row[b] {
      ProperSubsetSmaller(ValuesBelow(row, row[a]), ValuesBelow(row, row[b]), row[a]);
    } else if row[b] < row[a] {
      ProperSubsetSmaller(ValuesBelow(row, row[b]), ValuesBelow(row, row[a]), row[b]);
    }
  }

  lemma {:induction false} ValuesBound(row: seq<real>)
    ensures |Values(row)| <= |row|
    decreases |row|
  {
    if |row| > 0 {
      var p := row[..|row| - 1];
      assert Values(row) == Values(p) + {row[|row| - 1]};
      ValuesBound(p);
    }
  }

  /** Every rank is below the number of distinct values, which is at most the row length. */
  lemma RankBound(row: seq<real>, j: nat)
    requires j < |row|
    ensures DenseRank(row)[j] < |Values(row)| <= |row|
  {
    DenseRankCountsSmallerValues(row, j);
    ProperSubsetSmaller(ValuesBelow(row, row[j]), Values(row), row[j]);
    ValuesBound(row);
  }

  // ---------------------------------------------------------------------------
  // Rows that order their entries alike rank them alike

  /** Two rows of one length whose entries compare the same way. */
  predicate SameOrder(t: seq<real>, p: seq<real>) {
    |t| == |p| && forall a, b :: 0 <= a < |t| && 0 <= b < |t| ==> (t[a] < t[b] <==> p[a] < p[b])
  }

  /** Indices of first occurrences of the values below `v`: one index per distinct value. */
  function FirstsBelow(row: seq<real>, v: real): set<nat> {
    set k | 0 <= k < |row| && row[k] !in row[..k] && row[k] < v
  }

  /** Appending a value already present, or not below `v`, adds nothing. */
  lemma FirstsAppendOld(row: seq<real>, v: real)
    requires |row| > 0
    requires row[|row| - 1] in row[..|row| - 1] || row[|row| - 1] >= v
    ensures FirstsBelow(row, v) == FirstsBelow(row[..|row| - 1], v)
    ensures ValuesBelow(row, v) == ValuesBelow(row[..|row| - 1], v)
  {
    var n := |row| - 1;
    var p := row[..n];
    forall k | 0 <= k < n ensures row[..k] == p[..k] { }
    assert forall y :: y in row ==> y in p || y == row[n];
  }

  /** Appending a new value below `v` adds one index and one value. */
  lemma FirstsAppendNew(row: seq<real>, v: real)
    requires |row| > 0
    requires row[|row| - 1] !in row[..|row| - 1] && row[|row| - 1] < v
    ensures FirstsBelow(row, v) == FirstsBelow(row[..|row| - 1], v) + {|row| - 1}
    ensures |row| - 1 !in FirstsBelow(row[..|row| - 1], v)
    ensures ValuesBelow(row, v) == ValuesBelow(row[..|row| - 1], v) + {row[|row| - 1]}
    ensures row[|row| - 1] !in ValuesBelow(row[..|row| - 1], v)
  {
    var n := |row| - 1;
    var p := row[..n];
    forall k | 0 <= k < n ensures row[..k] == p[..k] { }
    assert forall y :: y in row ==> y in p || y == row[n];
  }

  lemma {:induction false} FirstsCountValues(row: seq<real>, v: real)
    ensures |FirstsBelow(row, v)| == |ValuesBelow(row, v)|
    decreases |row|
  {
    if |row| > 0 {
      var n := |row| - 1;
      FirstsCountValues(row[..n], v);
      if row[n] in row[..n] || row[n] >= v {
        FirstsAppendOld(row, v);
      } else {
        FirstsAppendNew(row, v);
      }
    }
  }

  /** Rows that order their entries identically get identical dense ranks. */
  lemma SameOrderSameRanks(t: seq<real>, p: seq<real>)
    requires SameOrder(t, p)
    ensures DenseRank(t) == DenseRank(p)
  {
    forall j | 0 <= j < |t|
      ensures DenseRank(t)[j] == DenseRank(p)[j]
    {
      assert FirstsBelow(t, t[j]) == FirstsBelow(p, p[j]) by {
        forall k | 0 <= k < |t|
          ensures (t[k] !in t[..k]) <==> (p[k] !in p[..k])
        {
          if t[k] in t[..k] {
            var a :| 0 <= a < k && t[..k][a] == t[k];
            assert t[a] == t[k];
            assert p[..k][a] == p[k];
          }
          if p[k] in p[..k] {
            var a :| 0 <= a < k && p[..k][a] == p[k];
            assert p[a] == p[k];
            assert t[..k][a] == t[k];
          }
        }
      }
      FirstsCountValues(t, t[j]);
      FirstsCountValues(p, p[j]);
      DenseRankCountsSmallerValues(t, j);
      DenseRankCountsSmallerValues(p, j);
    }
  }

  // ---------------------------------------------------------------------------
  // The per-row rank difference

  function AbsDiff(a: int, b: int): nat {
    if a < b then b - a else a - b
  }

  function SumAbsDiff(a: seq<nat>, b: seq<nat>): int
    requires |a| == |b|
    decreases |a|
  {
    if |a| == 0 then 0
    else SumAbsDiff(a[..|a| - 1], b[..|b| - 1]) + AbsDiff(a[|a| - 1], b[|b| - 1])
  }

  /** `np.sum(np.abs(rank_real - rank_pred))` for one row. */
  function RowRankDiff(truth: seq<real>, pred: seq<real>): int
    requires |truth| == |pred|
  {
    SumAbsDiff(DenseRank(truth), DenseRank(pred))
  }

  lemma {:induction false} SumAbsDiffBounds(a: seq<nat>, b: seq<nat>, bound: nat)
    requires |a| == |b|
    requires forall j :: 0 <= j < |a| ==> AbsDiff(a[j], b[j]) <= bound
    ensures 0 <= SumAbsDiff(a, b) <= |a| * bound
    decreases |a|
  {
    if |a| > 0 {
      var n := |a| - 1;
      SumAbsDiffBounds(a[..n], b[..n], bound);
      assert |a| * bound == n * bound + bound;
    }
  }

  lemma {:induction false} SumAbsDiffSymmetric(a: seq<nat>, b: seq<nat>)
    requires |a| == |b|
    ensures SumAbsDiff(a, b) == SumAbsDiff(b, a)
    decreases |a|
  {
    if |a| > 0 {
      SumAbsDiffSymmetric(a[..|a| - 1], b[..|b| - 1]);
    }
  }

  lemma {:induction false} SumAbsDiffSelf(a: seq<nat>)
    ensures SumAbsDiff(a, a) == 0
    decreases |a|
  {
    if |a| > 0 {
      SumAbsDiffSelf(a[..|a| - 1]);
    }
  }

  /** A row's rank difference is never negative and does not depend on which row is the truth. */
  lemma RowRankDiffSymmetric(truth: seq<real>, pred: seq<real>)
    requires |truth| == |pred|
    ensures 0 <= RowRankDiff(truth, pred) == RowRankDiff(pred, truth)
  {
    var rt, rp := DenseRank(truth), DenseRank(pred);
    forall j | 0 <= j < |rt| ensures AbsDiff(rt[j], rp[j]) <= |truth| {
      RankBound(truth, j);
      RankBound(pred, j);
    }
    SumAbsDiffBounds(rt, rp, |truth|);
    SumAbsDiffSymmetric(rt, rp);
  }

  /** A prediction that orders the values as the truth does (in particular, the truth itself) contributes 0. */
  lemma RowRankDiffZero(truth: seq<real>, pred: seq<real>)
    requires SameOrder(truth, pred)
    ensures RowRankDiff(truth, pred) == 0
  {
    SameOrderSameRanks(truth, pred);
    SumAbsDiffSelf(DenseRank(truth));
  }

  /** With the network's four outputs, each rank differs by at most 3, so a row contributes at most 12. */
  lemma FourOutputBound(truth: seq<real>, pred: seq<real>, j: nat)
    requires |truth| == 4 && |pred| == 4 && j < 4
    ensures AbsDiff(DenseRank(truth)[j], DenseRank(pred)[j]) <= 3
    ensures 0 <= RowRankDiff(truth, pred) <= 12
  {
    var rt, rp := DenseRank(truth), DenseRank(pred);
    forall k | 0 <= k < 4 ensures AbsDiff(rt[k], rp[k]) <= 3 {
      RankBound(truth, k);
      RankBound(pred, k);
    }
    SumAbsDiffBounds(rt, rp, 3);
  }

  // ---------------------------------------------------------------------------
  // Worked cases

  /** In a strictly increasing row, every entry's rank is its index. */
  lemma RankOfIncreasing(row: seq<real>, j: nat)
    requires StrictlyIncreasing(row) && j < |row|
    ensures DenseRank(row)[j] == j
  {
    DenseRankCountsSmallerValues(row, j);
    SortedPrefixBelow(row, row, j);
    DistinctCount(row[..j]);
  }

  /** In a strictly decreasing row, the entries after `j` are the values below `row[j]`. */
  lemma SortedSuffixBelow(row: seq<real>, j: nat)
    requires forall a, b :: 0 <= a < b < |row| ==> row[a] > row[b]
    requires j < |row|
    ensures ValuesBelow(row, row[j]) == Values(row[j + 1..])
    ensures Distinct(row[j + 1..])
  {
    var v := row[j + 1..];
    forall x | x in ValuesBelow(row, row[j]) ensures x in Values(v) {
      var a :| 0 <= a < |row| && row[a] == x;
      assert a > j;
      assert v[a - j - 1] == x;
    }
    forall x | x in Values(v) ensures x in ValuesBelow(row, row[j]) {
      var a :| 0 <= a < |v| && v[a] == x;
      assert row[a + j + 1] == x;
    }
    forall a, b | 0 <= a < b < |v| ensures v[a] != v[b] {
      assert v[a] == row[a + j + 1] && v[b] == row[b + j + 1];
    }
  }

  /** In a strictly decreasing row, ranks run from the top down. */
  lemma RankOfDecreasing(row: seq<real>, j: nat)
    requires forall a, b :: 0 <= a < b < |row| ==> row[a] > row[b]
    requires j < |row|
    ensures DenseRank(row)[j] == |row| - 1 - j
  {
    DenseRankCountsSmallerValues(row, j);
    SortedSuffixBelow(row, j);
    DistinctCount(row[j + 1..]);
  }

  lemma IncreasingExample(t: seq<real>)
    requires t == [1.0, 2.0, 3.0, 4.0]
    ensures DenseRank(t) == [0, 1, 2, 3]
  {
    assert StrictlyIncreasing(t);
    forall j | 0 <= j < 4 ensures DenseRank(t)[j] == j {
      RankOfIncreasing(t, j);
    }
  }

  lemma DecreasingExample(p: seq<real>)
    requires p == [4.0, 3.0, 2.0, 1.0]
    ensures DenseRank(p) == [3, 2, 1, 0]
  {
    assert forall a, b :: 0 <= a < b < |p| ==> p[a] > p[b];
    forall j | 0 <= j < 4 ensures DenseRank(p)[j] == 3 - j {
      RankOfDecreasing(p, j);
    }
  }

  /** A fully reversed prediction of four distinct values costs 3 + 1 + 1 + 3 = 8. */
  lemma ReversedRowDiff(t: seq<real>, p: seq<real>)
    requires t == [1.0, 2.0, 3.0, 4.0] && p == [4.0, 3.0, 2.0, 1.0]
    ensures RowRankDiff(t, p) == 8
  {
    IncreasingExample(t);
    DecreasingExample(p);
    assert SumAbsDiff([0], [3]) == 3 by { assert [0][..0] == []; assert [3][..0] == []; }
    assert SumAbsDiff([0, 1], [3, 2]) == 4 by { assert [0, 1][..1] == [0]; assert [3, 2][..1] == [3]; }
    assert SumAbsDiff([0, 1, 2], [3, 2, 1]) == 5 by { assert [0, 1, 2][..2] == [0, 1]; assert [3, 2, 1][..2] == [3, 2]; }
    assert [0, 1, 2, 3][..3] == [0, 1, 2];
    assert [3, 2, 1, 0][..3] == [3, 2, 1];
  }

  /** Ties are not broken by position: equal values share one dense rank. */
  lemma TiesExample(t: seq<real>)
    requires t == [1.0, 1.0, 2.0, 2.0]
    ensures DenseRank(t) == [0, 0, 1, 1]
  {
    assert ValuesBelow(t, 1.0) == {} by {
      assert forall x :: x in t ==> x >= 1.0;
    }
    assert ValuesBelow(t, 2.0) == {1.0} by {
      assert t[0] == 1.0;
      assert forall x :: x in t ==> x == 1.0 || x == 2.0;
    }
    forall j | 0 <= j < 4 ensures DenseRank(t)[j] == if j < 2 then 0 else 1 {
      DenseRankCountsSmallerValues(t, j);
      assert t[j] == if j < 2 then 1.0 else 2.0;
    }
  }
}
