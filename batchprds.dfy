/*
 * The batch helpers of batchprds.cpp: which_rcpp (the positions of one batch
 * label), subset_rcpp (the p-values of one batch), stl_sort (a sorted copy)
 * and Rcpp_sort (x reordered by the order of y).
 */
module BatchPrds {
  import opened Common

  // ---------------------------------------------------------------------
  // which_rcpp and subset_rcpp.

  /** For each position of v: does it carry the batch label? */
  function Matches(v: seq<real>, batch: real): seq<bool>
  {
    seq(|v|, i requires 0 <= i < |v| => v[i] == batch)
  }

  /** The positions of v carrying the label, in increasing order. */
  function Which(v: seq<real>, batch: real): seq<nat>
  {
    Rejected(Matches(v, batch))
  }

  /** Which lists exactly the labelled positions, strictly increasing. */
  lemma WhichExactly(v: seq<real>, batch: real)
    ensures Increasing(Which(v, batch))
    ensures forall k :: 0 <= k < |Which(v, batch)| ==> Which(v, batch)[k] < |v| && v[Which(v, batch)[k]] == batch
    ensures forall i :: 0 <= i < |v| && v[i] == batch ==> i in Which(v, batch)
    ensures |Which(v, batch)| == CountTrue(Matches(v, batch))
  {
    RejectedIncreasing(Matches(v, batch));
    RejectedAreRejections(Matches(v, batch));
    RejectionsListed(Matches(v, batch));
  }

  /** Which on one more position of v. */
  lemma WhichSnoc(v: seq<real>, batch: real, i: int)
    requires 0 <= i < |v|
    ensures Which(v[..i + 1], batch) == Which(v[..i], batch) + (if v[i] == batch then [i] else [])
  {
    assert Matches(v[..i + 1], batch)[..i] == Matches(v[..i], batch);
  }

  /** which_rcpp: the positions i with v[i] == batch, pushed back in increasing order. */
  method WhichRcpp(v: seq<real>, batch: real) returns (res: seq<nat>)
    ensures res == Which(v, batch)
    ensures Increasing(res)
    ensures forall k :: 0 <= k < |res| ==> res[k] < |v| && v[res[k]] == batch
    ensures forall i :: 0 <= i < |v| && v[i] == batch ==> i in res
  {
    res := [];
    for i := 0 to |v|
      invariant res == Which(v[..i], batch)
    {
      WhichSnoc(v, batch, i);
      if v[i] == batch {
        res := res + [i];
      }
    }
    assert v[..|v|] == v;
    WhichExactly(v, batch);
  }

  /** The entries of p at the positions idx, in that order. */
  function Pick(p: seq<real>, idx: seq<nat>): (r: seq<real>)
    requires forall k :: 0 <= k < |idx| ==> idx[k] < |p|
    ensures |r| == |idx| && forall k :: 0 <= k < |idx| ==> r[k] == p[idx[k]]
  {
    seq(|idx|, k requires 0 <= k < |idx| => p[idx[k]])
  }

  /**
   * subset_rcpp: the indicator ind[i] = (v[i] == batch) is filled, then
   * pval[ind > 0] keeps the p-values of the labelled positions. The result is
   * pval indexed by which_rcpp, as long as the number of labelled positions.
   */
  method SubsetRcpp(v: seq<real>, pval: seq<real>, batch: real) returns (res: seq<real>)
    requires |pval| == |v|
    ensures |res| == |Which(v, batch)| == CountTrue(Matches(v, batch))
    ensures forall k :: 0 <= k < |res| ==> res[k] == pval[Which(v, batch)[k]]
  {
    var ind := new real[|v|](_ => 0.0);
    for i := 0 to |v|
      invariant forall k :: 0 <= k < i ==> ind[k] == (if v[k] == batch then 1.0 else 0.0)
    {
      ind[i] := if v[i] == batch then 1.0 else 0.0;
    }
    res := [];
    for i := 0 to |v|
      invariant forall k :: 0 <= k < |v| ==> ind[k] == (if v[k] == batch then 1.0 else 0.0)
      invariant forall k :: 0 <= k < |Which(v[..i], batch)| ==> Which(v[..i], batch)[k] < i
      invariant res == Pick(pval, Which(v[..i], batch))
    {
      WhichSnoc(v, batch, i);
      if ind[i] > 0.0 {
        assert Pick(pval, Which(v[..i], batch) + [i]) == res + [pval[i]];
        res := res + [pval[i]];
      }
    }
    assert v[..|v|] == v;
    WhichExactly(v, batch);
  }

  // ---------------------------------------------------------------------
  // stl_sort: std::sort on a clone of x.

  predicate SortedReals(s: seq<real>)
  {
    forall a, b :: 0 <= a < b < |s| ==> s[a] <= s[b]
  }

  /** s with the entries at i and j exchanged. */
  function Swapped<T>(s: seq<T>, i: int, j: int): (r: seq<T>)
    requires 0 <= i < |s| && 0 <= j < |s|
    ensures |r| == |s| && r[i] == s[j] && r[j] == s[i]
    ensures forall k :: 0 <= k < |s| && k != i && k != j ==> r[k] == s[k]
  {
    s[i := s[j]][j := s[i]]
  }

  /** Exchange of two cells of a buffer. */
  method Exchange<T>(a: array<T>, i: int, j: int)
    requires 0 <= i < a.Length && 0 <= j < a.Length
    modifies a
    ensures a[..] == Swapped(old(a[..]), i, j)
    ensures multiset(a[..]) == old(multiset(a[..]))
  {
    a[i], a[j] := a[j], a[i];
  }

  /** Moves a[i] left past every larger entry: a[..i+1] is then sorted. */
  method InsertReal(a: array<real>, i: int)
    requires 0 <= i < a.Length && SortedReals(a[..i])
    modifies a
    ensures SortedReals(a[..i + 1]) && a[i + 1..] == old(a[i + 1..])
    ensures multiset(a[..]) == old(multiset(a[..]))
  {
    var j := i;
    while j > 0 && a[j - 1] > a[j]
      invariant 0 <= j <= i
      invariant forall p, q :: 0 <= p < q <= i && p != j && q != j ==> a[p] <= a[q]
      invariant forall q :: j < q <= i ==> a[j] < a[q]
      invariant a[i + 1..] == old(a[i + 1..])
      invariant multiset(a[..]) == old(multiset(a[..]))
    {
      Exchange(a, j - 1, j);
      j := j - 1;
    }
  }

  /** Sorts a buffer of reals in place into non-decreasing order. */
  method SortReals(a: array<real>)
    modifies a
    ensures SortedReals(a[..]) && multiset(a[..]) == old(multiset(a[..]))
  {
    for i := 0 to a.Length
      invariant SortedReals(a[..i]) && multiset(a[..]) == old(multiset(a[..]))
    {
      InsertReal(a, i);
    }
    assert a[..a.Length] == a[..];
  }

  /** stl_sort: a non-decreasing rearrangement of x; x itself is a value and stays as it is. */
  method StlSort(x: seq<real>) returns (y: seq<real>)
    ensures SortedReals(y) && multiset(y) == multiset(x)
  {
    var buf := new real[|x|](k requires 0 <= k < |x| => x[k]);
    assert buf[..] == x;
    SortReals(buf);
    y := buf[..];
  }

  /** Dropping the head of a sequence drops one copy of it from the multiset. */
  lemma MultisetTail(s: seq<real>)
    requires |s| > 0
    ensures multiset(s[1..]) == multiset(s) - multiset{s[0]}
  {
    assert s == [s[0]] + s[1..];
  }

  /** Two sorted sequences with the same entries start with the same (least) entry. */
  lemma SortedHeads(s: seq<real>, t: seq<real>)
    requires SortedReals(s) && SortedReals(t) && multiset(s) == multiset(t) && |s| > 0 && |t| > 0
    ensures s[0] == t[0]
  {
    assert s[0] in multiset(t) && t[0] in multiset(s);
    var m :| 0 <= m < |t| && t[m] == s[0];
    var n :| 0 <= n < |s| && s[n] == t[0];
    assert t[0] <= t[m] && s[0] <= s[n];
  }

  /** A sorted rearrangement is unique, so stl_sort's result does not depend on how it sorts. */
  lemma {:induction false} SortedUnique(s: seq<real>, t: seq<real>)
    requires SortedReals(s) && SortedReals(t) && multiset(s) == multiset(t)
    ensures s == t
    decreases |s|
  {
    assert |s| == |multiset(s)| == |multiset(t)| == |t|;
    if |s| > 0 {
      SortedHeads(s, t);
      MultisetTail(s);
      MultisetTail(t);
      assert SortedReals(s[1..]) && SortedReals(t[1..]);
      SortedUnique(s[1..], t[1..]);
      assert s == [s[0]] + s[1..] && t == [t[0]] + t[1..];
    }
  }

  // ---------------------------------------------------------------------
  // Rcpp_sort: the index vector 0..n-1 sorted by y, then x read through it.

  /** The indices 0..n-1 in order: seq_along(x) - 1. */
  function Range(n: nat): (r: seq<nat>)
    ensures |r| == n && forall k :: 0 <= k < n ==> r[k] == k
  {
    seq(n, k => k)
  }

  /** The key y[idx[k]] is non-decreasing along idx. */
  ghost predicate SortedByKey(idx: seq<nat>, y: seq<real>)
  {
    (forall k :: 0 <= k < |idx| ==> idx[k] < |y|) &&
    forall a, b :: 0 <= a < b < |idx| ==> y[idx[a]] <= y[idx[b]]
  }

  /** Exchanging two indices exchanges the entries read through them. */
  lemma PickExchange(x: seq<real>, s: seq<nat>, i: int, j: int)
    requires 0 <= i < |s| && 0 <= j < |s| && forall k :: 0 <= k < |s| ==> s[k] < |x|
    ensures multiset(Pick(x, Swapped(s, i, j))) == multiset(Pick(x, s))
  {
    var p := Pick(x, s);
    assert Pick(x, Swapped(s, i, j)) == Swapped(p, i, j);
  }

  /**
   * The inner loop of an insertion step on the index vector s: every pair
   * in s[..i+1] not involving position j is in key order, and the index at j
   * has a smaller key than everything after it up to i.
   */
  ghost predicate KeyInsertState(s: seq<nat>, y: seq<real>, i: int, j: int)
  {
    0 <= j <= i < |s| && (forall k :: 0 <= k < |s| ==> s[k] < |y|) &&
    (forall p, q :: 0 <= p < q <= i && p != j && q != j ==> y[s[p]] <= y[s[q]]) &&
    (forall q :: j < q <= i ==> y[s[j]] < y[s[q]])
  }

  /** Every index in s is below n. */
  predicate Below(s: seq<nat>, n: int)
  {
    forall k :: 0 <= k < |s| ==> s[k] < n
  }

  /** An exchange of an out-of-order neighbour pair moves the inserted index one step left. */
  lemma KeyInsertStep(s: seq<nat>, y: seq<real>, i: int, j: int, x: seq<real>)
    requires KeyInsertState(s, y, i, j) && j > 0 && y[s[j - 1]] > y[s[j]]
    requires forall k :: 0 <= k < |s| ==> s[k] < |x|
    ensures KeyInsertState(Swapped(s, j - 1, j), y, i, j - 1)
    ensures Below(Swapped(s, j - 1, j), |x|)
    ensures Swapped(s, j - 1, j)[i + 1..] == s[i + 1..]
    ensures multiset(Pick(x, Swapped(s, j - 1, j))) == multiset(Pick(x, s))
  {
    PickExchange(x, s, j - 1, j);
    var t := Swapped(s, j - 1, j);
    forall k | 0 <= k < |s|
      ensures t[k] < |x|
    {
      if k != j - 1 && k != j {
        assert t[k] == s[k];
      }
    }
  }

  /** Once the left neighbour is not larger, s[..i+1] is in key order. */
  lemma KeyInsertDone(s: seq<nat>, y: seq<real>, i: int, j: int)
    requires KeyInsertState(s, y, i, j) && (j == 0 || y[s[j - 1]] <= y[s[j]])
    ensures SortedByKey(s[..i + 1], y)
  {
  }

  /** Moves idx[i] left past every index of larger key. */
  method InsertIndex(idx: array<nat>, y: seq<real>, i: int, ghost x: seq<real>)
    requires 0 <= i < idx.Length && |x| <= |y| && forall k :: 0 <= k < idx.Length ==> idx[k] < |x|
    requires SortedByKey(idx[..i], y)
    modifies idx
    ensures forall k :: 0 <= k < idx.Length ==> idx[k] < |x|
    ensures SortedByKey(idx[..i + 1], y) && idx[i + 1..] == old(idx[i + 1..])
    ensures multiset(idx[..]) == old(multiset(idx[..]))
    ensures multiset(Pick(x, idx[..])) == old(multiset(Pick(x, idx[..])))
  {
    var j := i;
    assert KeyInsertState(idx[..], y, i, j);
    while j > 0 && y[idx[j - 1]] > y[idx[j]]
      invariant KeyInsertState(idx[..], y, i, j)
      invariant forall k :: 0 <= k < idx.Length ==> idx[k] < |x|
      invariant idx[i + 1..] == old(idx[i + 1..])
      invariant multiset(idx[..]) == old(multiset(idx[..]))
      invariant multiset(Pick(x, idx[..])) == old(multiset(Pick(x, idx[..])))
    {
      KeyInsertStep(idx[..], y, i, j, x);
      Exchange(idx, j - 1, j);
      j := j - 1;
    }
    KeyInsertDone(idx[..], y, i, j);
  }

  /** std::sort of the index vector with the comparator y[i] < y[j]. */
  method SortIndices(idx: array<nat>, y: seq<real>, ghost x: seq<real>)
    requires |x| <= |y| && forall k :: 0 <= k < idx.Length ==> idx[k] < |x|
    modifies idx
    ensures SortedByKey(idx[..], y) && forall k :: 0 <= k < idx.Length ==> idx[k] < |x|
    ensures multiset(idx[..]) == old(multiset(idx[..]))
    ensures multiset(Pick(x, idx[..])) == old(multiset(Pick(x, idx[..])))
  {
    for i := 0 to idx.Length
      invariant forall k :: 0 <= k < idx.Length ==> idx[k] < |x|
      invariant SortedByKey(idx[..i], y)
      invariant multiset(idx[..]) == old(multiset(idx[..]))
      invariant multiset(Pick(x, idx[..])) == old(multiset(Pick(x, idx[..])))
    {
      InsertIndex(idx, y, i, x);
    }
    assert idx[..idx.Length] == idx[..];
  }

  /**
   * Rcpp_sort: x read through a rearrangement of the indices 0..|x|-1 along
   * which y is non-decreasing. Ties in y may come in any order.
   */
  method RcppSort(x: seq<real>, y: seq<real>) returns (r: seq<real>)
    requires |y| >= |x|
    ensures multiset(r) == multiset(x)
    ensures exists idx: seq<nat> :: SortedByKey(idx, y) && |idx| == |x| && (forall k :: 0 <= k < |idx| ==> idx[k] < |x|) &&
              multiset(idx) == multiset(Range(|x|)) && r == Pick(x, idx)
  {
    var idx := new nat[|x|](k requires 0 <= k < |x| => k);
    assert idx[..] == Range(|x|);
    assert Pick(x, idx[..]) == x;
    SortIndices(idx, y, x);
    r := Pick(x, idx[..]);
    assert SortedByKey(idx[..], y) && multiset(idx[..]) == multiset(Range(|x|));
  }

  /** A rearrangement of 0..n-1 contains every index below n. */
  lemma RangeMembers(idx: seq<nat>, n: nat)
    requires multiset(idx) == multiset(Range(n))
    ensures forall v :: 0 <= v < n ==> v in idx
  {
    forall v | 0 <= v < n
      ensures v in idx
    {
      assert Range(n)[v] == v;
      assert v in multiset(Range(n));
    }
  }

  /**
   * With distinct keys the index order is determined: for x = [1, 1, 2] and
   * y = [5, 0, 3], Rcpp_sort can only return [1, 2, 1].
   */
  lemma RcppSortExample(idx: seq<nat>)
    requires SortedByKey(idx, [5.0, 0.0, 3.0]) && |idx| == 3 && (forall k :: 0 <= k < |idx| ==> idx[k] < 3)
    requires multiset(idx) == multiset(Range(3))
    ensures Pick([1.0, 1.0, 2.0], idx) == [1.0, 2.0, 1.0]
  {
    var y := [5.0, 0.0, 3.0];
    RangeMembers(idx, 3);
    assert 0 in idx && 1 in idx && 2 in idx;
    var k1 :| 0 <= k1 < 3 && idx[k1] == 1;
    var k0 :| 0 <= k0 < 3 && idx[k0] == 0;
    assert y[idx[0]] <= y[idx[k1]] == 0.0 && y[idx[k0]] <= y[idx[2]];
    assert idx == [1, 2, 0];
  }

  /** Sorting x by its own values gives the stl_sort result: the sorted rearrangement of x. */
  lemma OrderBySelf(x: seq<real>, idx: seq<nat>, r: seq<real>, y: seq<real>)
    requires SortedByKey(idx, x) && (forall k :: 0 <= k < |idx| ==> idx[k] < |x|) && r == Pick(x, idx)
    requires multiset(r) == multiset(x) && SortedReals(y) && multiset(y) == multiset(x)
    ensures r == y
  {
    assert SortedReals(r);
    SortedUnique(r, y);
  }
}
