/*
 * Shared vocabulary of the online FDR recurrences: counting rejections and
 * candidates, the ordered list of rejection indices, the visibility rules of
 * the asynchronous and dependent arrival models, real sums, and the two
 * integer oddities of the source (the std::vector<bool> read-back and the
 * dependent-lag visibility test).
 */
module Common {

  /** std::min on doubles: the second argument when it is strictly smaller. */
  function Min(a: real, b: real): (r: real)
    ensures r <= a && r <= b
    ensures r == a || r == b
  {
    if b < a then b else a
  }

  /** std::max on ints. */
  function MaxInt(a: int, b: int): (r: int)
    ensures r >= a && r >= b
    ensures r == a || r == b
  {
    if b > a then b else a
  }

  /** std::min on ints. */
  function MinInt(a: int, b: int): (r: int)
    ensures r <= a && r <= b
    ensures r == a || r == b
  {
    if b < a then b else a
  }

  /** A logical value used in arithmetic (R[i] * b0 in C++): 1 or 0. */
  function B2I(b: bool): (r: int)
    ensures 0 <= r <= 1
    ensures r == 1 <==> b
  {
    if b then 1 else 0
  }

  /**
   * A rejection index j pushed onto a std::vector<bool> is stored as (j != 0),
   * so reading it back as an integer gives 0 for j == 0 and 1 otherwise.
   */
  function StoredIdx(j: int): (r: int)
    ensures 0 <= r <= 1
    ensures r == 0 <==> j == 0
  {
    if j == 0 then 0 else 1
  }

  /** Reading an element of the std::vector<bool> back as an integer. */
  function BitValue(b: bool): int
  {
    if b then 1 else 0
  }

  lemma BitValueOfStored(j: int)
    ensures BitValue(j != 0) == StoredIdx(j)
  {
  }

  /**
   * The dependent-lag visibility test `j <= j - L[i]` of the source holds,
   * whatever j is, exactly when L[i] <= 0.
   */
  predicate DepVisible(li: int)
  {
    li <= 0
  }

  /** The literal test of the source. */
  predicate DepTest(j: int, li: int)
  {
    j <= j - li
  }

  lemma DepTestIsDepVisible(j: int, li: int)
    ensures DepTest(j, li) <==> DepVisible(li)
  {
  }

  /** The asynchronous visibility test `E[j]-1 <= i-1`: outcome j is known at step i. */
  predicate Arrived(ej: int, i: int)
  {
    ej - 1 <= i - 1
  }

  /** Number of true entries (sum of a LogicalVector). */
  function CountTrue(rs: seq<bool>): (c: nat)
    ensures c <= |rs|
  {
    if |rs| == 0 then 0 else CountTrue(rs[..|rs| - 1]) + B2I(rs[|rs| - 1])
  }

  /** Strictly increasing sequence of indices. */
  predicate Increasing(ts: seq<int>)
  {
    forall a, b :: 0 <= a < b < |ts| ==> ts[a] < ts[b]
  }

  /**
   * The rejection indices of a decision history, in increasing order: what
   * `tau` / `kappai` accumulate by push_back.
   */
  function Rejected(rs: seq<bool>): (ts: seq<nat>)
    ensures |ts| == CountTrue(rs)
    ensures forall k :: 0 <= k < |ts| ==> ts[k] < |rs|
  {
    if |rs| == 0 then []
    else
      var n := |rs| - 1;
      Rejected(rs[..n]) + (if rs[n] then [n] else [])
  }

  /**
   * The rejection list is exactly the rejected indices: increasing, every
   * entry rejected, and every rejected index listed.
   */
  lemma RejectedExactly(rs: seq<bool>)
    ensures Increasing(Rejected(rs))
    ensures forall k :: 0 <= k < |Rejected(rs)| ==> rs[Rejected(rs)[k]]
    ensures forall j :: 0 <= j < |rs| && rs[j] ==> j in Rejected(rs)
  {
    RejectedIncreasing(rs);
    RejectedAreRejections(rs);
    RejectionsListed(rs);
  }

  lemma {:induction false} RejectedIncreasing(rs: seq<bool>)
    ensures Increasing(Rejected(rs))
  {
    if |rs| > 0 {
      var n := |rs| - 1;
      RejectedIncreasing(rs[..n]);
      var ts := Rejected(rs[..n]);
      var all := Rejected(rs);
      assert all == ts + (if rs[n] then [n] else []);
      forall a, b | 0 <= a < b < |all|
        ensures all[a] < all[b]
      {
        assert all[a] == ts[a];
        if b >= |ts| {
          assert all[b] == n;
        }
      }
    }
  }

  lemma {:induction false} RejectedAreRejections(rs: seq<bool>)
    ensures forall k :: 0 <= k < |Rejected(rs)| ==> rs[Rejected(rs)[k]]
  {
    if |rs| > 0 {
      var n := |rs| - 1;
      var p := rs[..n];
      RejectedAreRejections(p);
      var ts := Rejected(p);
      var all := Rejected(rs);
      assert all == ts + (if rs[n] then [n] else []);
      forall k | 0 <= k < |all|
        ensures rs[all[k]]
      {
        if k < |ts| {
          assert all[k] == ts[k] && p[ts[k]] == rs[ts[k]];
        }
      }
    }
  }

  lemma {:induction false} RejectionsListed(rs: seq<bool>)
    ensures forall j :: 0 <= j < |rs| && rs[j] ==> j in Rejected(rs)
  {
    if |rs| > 0 {
      var n := |rs| - 1;
      var p := rs[..n];
      RejectionsListed(p);
      var ts := Rejected(p);
      var all := Rejected(rs);
      assert all == ts + (if rs[n] then [n] else []);
      forall j | 0 <= j < |rs| && rs[j]
        ensures j in all
      {
        if j < n {
          assert p[j] == rs[j];
          assert j in ts;
        } else {
          assert all[|all| - 1] == n;
        }
      }
    }
  }

  /**
   * The rejections visible at step i under the asynchronous model: the j < |rs|
   * with rs[j] whose outcome has arrived (E[j] <= i), in increasing order.
   */
  function Visible(rs: seq<bool>, e: seq<int>, i: int): (ts: seq<nat>)
    requires |rs| <= |e|
    ensures Increasing(ts)
    ensures forall k :: 0 <= k < |ts| ==> ts[k] < |rs| && rs[ts[k]] && Arrived(e[ts[k]], i)
    ensures forall j :: 0 <= j < |rs| && rs[j] && Arrived(e[j], i) ==> j in ts
    ensures |ts| <= |rs|
  {
    if |rs| == 0 then []
    else
      var n := |rs| - 1;
      Visible(rs[..n], e, i) + (if rs[n] && Arrived(e[n], i) then [n] else [])
  }

  /** Number of k in [lo, hi) with p[k] <= thr. */
  function CountLe(p: seq<real>, lo: int, hi: int, thr: real): (c: nat)
    requires 0 <= lo && hi <= |p|
    ensures lo <= hi ==> c <= hi - lo
    ensures hi <= lo ==> c == 0
    decreases hi - lo
  {
    if hi <= lo then 0 else CountLe(p, lo, hi - 1, thr) + B2I(p[hi - 1] <= thr)
  }

  /** Number of k in [lo, hi) with p[k] <= thr whose outcome has arrived at step i. */
  function CountLeArrived(p: seq<real>, e: seq<int>, lo: int, hi: int, thr: real, i: int): (c: nat)
    requires 0 <= lo && hi <= |p| && hi <= |e|
    ensures lo <= hi ==> c <= hi - lo
    ensures hi <= lo ==> c == 0
    decreases hi - lo
  {
    if hi <= lo then 0
    else CountLeArrived(p, e, lo, hi - 1, thr, i) + B2I(p[hi - 1] <= thr && Arrived(e[hi - 1], i))
  }

  /** Sum of a sequence of reals, accumulated from the left as the loops do. */
  function Sum(s: seq<real>): real
  {
    if |s| == 0 then 0.0 else Sum(s[..|s| - 1]) + s[|s| - 1]
  }

  /** Adding the next element to a running sum. */
  lemma SumSnoc(s: seq<real>, k: nat)
    requires k < |s|
    ensures Sum(s[..k + 1]) == Sum(s[..k]) + s[k]
  {
    assert s[..k + 1][..k] == s[..k];
  }

  /** Splitting off the first term: what `sum - first` in the sources relies on. */
  lemma {:induction false} SumFirst(s: seq<real>)
    requires |s| >= 1
    ensures Sum(s) == s[0] + Sum(s[1..])
  {
    if |s| > 1 {
      var n := |s| - 1;
      SumFirst(s[..n]);
      assert s[..n][1..] == s[1..][..n - 1];
      assert s[..n][0] == s[0];
      assert s[1..][n - 1] == s[n];
    }
  }

  /** A sum of n copies of the same value. */
  lemma {:induction false} SumConstant(s: seq<real>, v: real)
    requires forall k :: 0 <= k < |s| ==> s[k] == v
    ensures Sum(s) == (|s| as real) * v
  {
    if |s| > 0 {
      SumConstant(s[..|s| - 1], v);
    }
  }

  /** A sum of non-negative terms is non-negative. */
  lemma {:induction false} SumNonNegative(s: seq<real>)
    requires forall k :: 0 <= k < |s| ==> s[k] >= 0.0
    ensures Sum(s) >= 0.0
  {
    if |s| > 0 {
      SumNonNegative(s[..|s| - 1]);
    }
  }

  /** Appending a decision leaves every earlier prefix unchanged. */
  lemma PrefixOfSnoc<T>(s: seq<T>, x: T)
    ensures (s + [x])[..|s|] == s
    ensures forall k :: 0 <= k <= |s| ==> (s + [x])[..k] == s[..k]
  {
  }

  /** The k-th entries and prefixes of two sequences grown by one entry each. */
  lemma PrefixOfSnocAt(alphai: seq<real>, a: real, rs: seq<bool>, b: bool, k: int)
    requires |alphai| == |rs| && 0 <= k <= |rs|
    ensures k < |rs| ==> (alphai + [a])[k] == alphai[k] && (rs + [b])[..k] == rs[..k]
    ensures k == |rs| ==> (alphai + [a])[k] == a && (rs + [b])[..k] == rs
  {
  }

  /** R[k] = (pval[k] <= alphai[k]) on every step so far. */
  ghost predicate Decided(pval: seq<real>, alphai: seq<real>, R: seq<bool>)
  {
    |alphai| == |R| <= |pval| && forall k {:trigger pval[k]} :: 0 <= k < |R| ==> R[k] == (pval[k] <= alphai[k])
  }

  /** One more decision R[i] = (pval[i] <= alphai[i]) keeps the decisions on every index. */
  lemma DecisionsSnoc(pval: seq<real>, alphai: seq<real>, rs: seq<bool>, a: real, b: bool)
    requires |rs| == |alphai| < |pval|
    requires forall k {:trigger pval[k]} :: 0 <= k < |rs| ==> rs[k] == (pval[k] <= alphai[k])
    requires b == (pval[|rs|] <= a)
    ensures forall k {:trigger (alphai + [a])[k]} :: 0 <= k < |rs| + 1 ==> (rs + [b])[k] == (pval[k] <= (alphai + [a])[k])
  {
  }

  /**
   * alphai and R of a run driven by the rule f: every alphai[k], k >= 1, is
   * f on the first k decisions.
   */
  ghost predicate IsRunOf(f: seq<bool> -> Option<real>, alphai: seq<real>, R: seq<bool>)
    decreases |R|
  {
    |alphai| == |R| &&
    (|R| <= 1 ||
     (IsRunOf(f, alphai[..|R| - 1], R[..|R| - 1]) && f(R[..|R| - 1]) == Some(alphai[|R| - 1])))
  }

  /** Every threshold of a run after the first, one index at a time. */
  lemma {:induction false} RunOfRows(f: seq<bool> -> Option<real>, alphai: seq<real>, R: seq<bool>)
    requires IsRunOf(f, alphai, R)
    ensures forall k {:trigger alphai[k]} :: 1 <= k < |R| ==> f(R[..k]) == Some(alphai[k])
    decreases |R|
  {
    if |R| > 1 {
      var n := |R| - 1;
      RunOfRows(f, alphai[..n], R[..n]);
      forall k | 1 <= k < n
        ensures f(R[..k]) == Some(alphai[k])
      {
        assert alphai[..n][k] == alphai[k] && R[..n][..k] == R[..k];
      }
    }
  }

  /** One more step whose threshold is f on the history extends the run. */
  lemma RunOfSnoc(f: seq<bool> -> Option<real>, alphai: seq<real>, R: seq<bool>, a: real, b: bool)
    requires IsRunOf(f, alphai, R) && |R| >= 1 && f(R) == Some(a)
    ensures IsRunOf(f, alphai + [a], R + [b])
  {
    assert (alphai + [a])[..|R|] == alphai && (R + [b])[..|R|] == R;
  }

  /** Appending a decision appends its index to the rejection list exactly when it rejects. */
  lemma RejectedSnoc(rs: seq<bool>, b: bool)
    ensures Rejected(rs + [b]) == Rejected(rs) + (if b then [|rs|] else [])
    ensures CountTrue(rs + [b]) == CountTrue(rs) + B2I(b)
  {
    assert (rs + [b])[..|rs|] == rs;
  }

  /** Number of j < |rs| with rs[j] whose outcome has arrived at step i (E[j] <= i). */
  function CountArrived(rs: seq<bool>, e: seq<int>, i: int): (c: nat)
    requires |rs| <= |e|
    ensures c <= |rs|
  {
    if |rs| == 0 then 0
    else
      var n := |rs| - 1;
      CountArrived(rs[..n], e, i) + B2I(rs[n] && Arrived(e[n], i))
  }

  /** The visible list and the visible count agree. */
  lemma {:induction false} VisibleCount(rs: seq<bool>, e: seq<int>, i: int)
    requires |rs| <= |e|
    ensures |Visible(rs, e, i)| == CountArrived(rs, e, i)
  {
    if |rs| > 0 {
      VisibleCount(rs[..|rs| - 1], e, i);
    }
  }

  /** Arrival later (a larger E) can only hide rejections: the count never grows. */
  lemma {:induction false} CountArrivedAntitone(rs: seq<bool>, e: seq<int>, e2: seq<int>, i: int)
    requires |rs| <= |e| && |rs| <= |e2|
    requires forall j :: 0 <= j < |rs| ==> e[j] <= e2[j]
    ensures CountArrived(rs, e2, i) <= CountArrived(rs, e, i)
  {
    if |rs| > 0 {
      CountArrivedAntitone(rs[..|rs| - 1], e, e2, i);
    }
  }

  /**
   * The batch layout: batchsum is the running total of the batch sizes, and the
   * p-value vector holds at least batchsum[B-1] entries.
   */
  predicate BatchLayout(batch: seq<int>, batchsum: seq<int>, n: int)
  {
    |batch| >= 1 && |batchsum| == |batch| &&
    (forall b :: 0 <= b < |batch| ==> batch[b] >= 0) &&
    batchsum[0] == batch[0] &&
    (forall b {:trigger batch[b]} :: 1 <= b < |batch| ==> batchsum[b] == batchsum[b - 1] + batch[b]) &&
    (forall b :: 0 <= b < |batch| ==> 0 <= batchsum[b] <= n)
  }

  /** Position in the flat p-value vector of the first hypothesis of batch b. */
  function Offset(batchsum: seq<int>, b: int): int
    requires 0 <= b < |batchsum|
  {
    if b == 0 then 0 else batchsum[b - 1]
  }

  /** Every batch lies inside the flat vector. */
  lemma BatchInRange(batch: seq<int>, batchsum: seq<int>, n: int, b: int)
    requires BatchLayout(batch, batchsum, n)
    requires 0 <= b < |batch|
    ensures 0 <= Offset(batchsum, b)
    ensures Offset(batchsum, b) + batch[b] == batchsum[b] <= n
  {
  }

  /** Largest entry, as Rcpp's max on a non-empty IntegerVector. */
  function MaxOf(s: seq<int>): (m: int)
    requires |s| >= 1
    ensures forall k :: 0 <= k < |s| ==> s[k] <= m
    ensures exists k :: 0 <= k < |s| && s[k] == m
  {
    if |s| == 1 then s[0] else MaxInt(MaxOf(s[..|s| - 1]), s[|s| - 1])
  }

  /** Number of true cells in rows 0..b-1 of a logical matrix given by rows. */
  function CellsBefore(R: seq<seq<bool>>, b: int): nat
    requires 0 <= b <= |R|
  {
    if b == 0 then 0 else CellsBefore(R, b - 1) + CountTrue(R[b - 1])
  }

  /** Appending a row leaves the counts of earlier rows unchanged. */
  lemma {:induction false} CellsBeforeSnoc(R: seq<seq<bool>>, row: seq<bool>)
    ensures forall b :: 0 <= b <= |R| ==> CellsBefore(R + [row], b) == CellsBefore(R, b)
  {
    forall b | 0 <= b <= |R|
      ensures CellsBefore(R + [row], b) == CellsBefore(R, b)
    {
      CellsBeforeSnocAt(R, row, b);
    }
  }

  lemma {:induction false} CellsBeforeSnocAt(R: seq<seq<bool>>, row: seq<bool>, b: int)
    requires 0 <= b <= |R|
    ensures CellsBefore(R + [row], b) == CellsBefore(R, b)
  {
    if b > 0 {
      CellsBeforeSnocAt(R, row, b - 1);
      assert (R + [row])[b - 1] == R[b - 1];
    }
  }

  /** Number of k in [lo, hi) with a < p[k] <= b. */
  function CountIn(p: seq<real>, lo: int, hi: int, a: real, b: real): (c: nat)
    requires 0 <= lo && hi <= |p|
    ensures lo <= hi ==> c <= hi - lo
    decreases hi - lo
  {
    if hi <= lo then 0 else CountIn(p, lo, hi - 1, a, b) + B2I(a < p[hi - 1] <= b)
  }

  /**
   * For a <= b the items at or below b, minus those at or below a, are
   * exactly the items in (a, b].
   */
  lemma {:induction false} CountLeDifference(p: seq<real>, lo: int, hi: int, a: real, b: real)
    requires 0 <= lo && hi <= |p| && a <= b
    ensures CountLe(p, lo, hi, b) - CountLe(p, lo, hi, a) == CountIn(p, lo, hi, a, b)
    ensures CountLe(p, lo, hi, a) <= CountLe(p, lo, hi, b)
    decreases hi - lo
  {
    if hi > lo {
      CountLeDifference(p, lo, hi - 1, a, b);
    }
  }

  /** Extending a count by one position. */
  lemma CountLeSnoc(p: seq<real>, lo: int, hi: int, thr: real)
    requires 0 <= lo <= hi < |p|
    ensures CountLe(p, lo, hi + 1, thr) == CountLe(p, lo, hi, thr) + B2I(p[hi] <= thr)
  {
  }

  /** A count over [lo, hi) splits at any mid point. */
  lemma {:induction false} CountLeSplit(p: seq<real>, lo: int, mid: int, hi: int, thr: real)
    requires 0 <= lo <= mid <= hi <= |p|
    ensures CountLe(p, lo, hi, thr) == CountLe(p, lo, mid, thr) + CountLe(p, mid, hi, thr)
    decreases hi - mid
  {
    if hi > mid {
      CountLeSplit(p, lo, mid, hi - 1, thr);
    }
  }

  /** An optional value: None where the source would read outside an array. */
  datatype Option<T> = None | Some(value: T)

  /** More rows never lower the running count. */
  lemma {:induction false} CellsBeforeMonotone(R: seq<seq<bool>>, a: int, b: int)
    requires 0 <= a <= b <= |R|
    ensures CellsBefore(R, a) <= CellsBefore(R, b)
    decreases b - a
  {
    if a < b {
      CellsBeforeMonotone(R, a, b - 1);
    }
  }

  /** The running batch totals never decrease. */
  lemma {:induction false} BatchsumMonotone(batch: seq<int>, batchsum: seq<int>, n: int, a: int, b: int)
    requires BatchLayout(batch, batchsum, n) && 0 <= a <= b < |batch|
    ensures batchsum[a] <= batchsum[b]
    decreases b - a
  {
    if a < b {
      BatchsumMonotone(batch, batchsum, n, a, b - 1);
      assert batchsum[b] == batchsum[b - 1] + batch[b];
    }
  }
}
