/*
 * LOND* (londstar_async_faster, londstar_dep_faster, londstar_batch_faster):
 * LOND under asynchronous testing, local dependence and batches. Every step
 * recounts, from scratch, the earlier rejections it is allowed to see and
 * scales betai by max(count, 1).
 */
module LondStar {
  import opened Common
  import opened Lond

  /** The async threshold at step i = |rs|: only rejections whose outcome has arrived count. */
  function AsyncAlpha(betai: seq<real>, E: seq<int>, rs: seq<bool>): real
    requires |rs| < |betai| && |rs| <= |E|
  {
    LondValue(betai[|rs|], false, CountArrived(rs, E, |rs|))
  }

  /** The dep-variant count at step i: all earlier rejections when L[i] <= 0, none otherwise. */
  function DepCount(rs: seq<bool>, li: int): nat
  {
    if DepVisible(li) then CountTrue(rs) else 0
  }

  /** The dep threshold at step i = |rs|. */
  function DepAlpha(betai: seq<real>, L: seq<int>, rs: seq<bool>): real
    requires |rs| < |betai| && |rs| < |L|
  {
    LondValue(betai[|rs|], false, DepCount(rs, L[|rs|]))
  }

  /** The inner loop of the async variant: Dsum over j <= i-1 with R[j] and E[j]-1 <= i-1. */
  method CountArrivedRejections(R: array<bool>, E: seq<int>, i: int) returns (dsum: int)
    requires 0 <= i <= R.Length && i <= |E|
    ensures dsum == CountArrived(R[..i], E, i)
  {
    dsum := 0;
    var j := 0;
    while j <= i - 1
      invariant 0 <= j <= i
      invariant dsum == CountArrived(R[..j], E, i)
    {
      assert R[..j + 1][..j] == R[..j];
      if R[j] && (E[j] - 1 <= i - 1) {
        dsum := dsum + 1;
      }
      j := j + 1;
    }
    assert R[..i] == R[..j];
  }

  /** The inner loop of the dep variant: Dsum over j <= i-1 with R[j] and j <= j - li. */
  method CountDepRejections(R: array<bool>, li: int, i: int) returns (dsum: int)
    requires 0 <= i <= R.Length
    ensures dsum == DepCount(R[..i], li)
  {
    dsum := 0;
    var j := 0;
    while j <= i - 1
      invariant 0 <= j <= i
      invariant dsum == DepCount(R[..j], li)
    {
      assert R[..j + 1][..j] == R[..j];
      DepTestIsDepVisible(j, li);
      if R[j] && (j <= j - li) {
        dsum := dsum + 1;
      }
      j := j + 1;
    }
    assert R[..i] == R[..j];
  }

  /** londstar_async_faster. The unused `alpha` argument is left out. */
  method AsyncFaster(pval: seq<real>, E: seq<int>, betai: seq<real>)
    returns (alphai: array<real>, R: array<bool>)
    requires |pval| >= 1 && |betai| >= |pval| && |E| >= |pval|
    ensures alphai.Length == |pval| && R.Length == |pval|
    ensures alphai[0] == betai[0]
    ensures forall k {:trigger alphai[k]} :: 0 <= k < |pval| ==> alphai[k] == AsyncAlpha(betai, E, R[..k])
    ensures forall k {:trigger R[k]} :: 0 <= k < |pval| ==> R[k] == (pval[k] <= alphai[k])
  {
    var N := |pval|;
    alphai := new real[N];
    R := new bool[N](_ => false);
    alphai[0] := betai[0];
    R[0] := pval[0] <= alphai[0];
    ghost var rs := [R[0]];
    var i := 1;
    while i < N
      invariant 1 <= i <= N && |rs| == i
      invariant R[..i] == rs
      invariant forall k :: i <= k < N ==> !R[k]
      invariant forall k {:trigger alphai[k]} :: 0 <= k < i ==> alphai[k] == AsyncAlpha(betai, E, rs[..k])
      invariant forall k {:trigger rs[k]} :: 0 <= k < i ==> rs[k] == (pval[k] <= alphai[k])
      invariant alphai[0] == betai[0]
    {
      var dsum := CountArrivedRejections(R, E, i);
      alphai[i] := LondValue(betai[i], false, dsum);
      if pval[i] <= alphai[i] {
        R[i] := true;
      }
      PrefixOfSnoc(rs, pval[i] <= alphai[i]);
      rs := rs + [pval[i] <= alphai[i]];
      i := i + 1;
    }
    assert R[..] == R[..N];
  }

  /** londstar_dep_faster. The unused `alpha` argument is left out. */
  method DepFaster(pval: seq<real>, L: seq<int>, betai: seq<real>)
    returns (alphai: array<real>, R: array<bool>)
    requires |pval| >= 1 && |betai| >= |pval| && |L| >= |pval|
    ensures alphai.Length == |pval| && R.Length == |pval|
    ensures alphai[0] == betai[0]
    ensures forall k {:trigger alphai[k]} :: 0 <= k < |pval| ==> alphai[k] == DepAlpha(betai, L, R[..k])
    ensures forall k {:trigger R[k]} :: 0 <= k < |pval| ==> R[k] == (pval[k] <= alphai[k])
  {
    var N := |pval|;
    alphai := new real[N];
    R := new bool[N](_ => false);
    alphai[0] := betai[0];
    R[0] := pval[0] <= alphai[0];
    ghost var rs := [R[0]];
    var i := 1;
    while i < N
      invariant 1 <= i <= N && |rs| == i
      invariant R[..i] == rs
      invariant forall k :: i <= k < N ==> !R[k]
      invariant forall k {:trigger alphai[k]} :: 0 <= k < i ==> alphai[k] == DepAlpha(betai, L, rs[..k])
      invariant forall k {:trigger rs[k]} :: 0 <= k < i ==> rs[k] == (pval[k] <= alphai[k])
      invariant alphai[0] == betai[0]
    {
      var dsum := CountDepRejections(R, L[i], i);
      alphai[i] := LondValue(betai[i], false, dsum);
      if pval[i] <= alphai[i] {
        R[i] := true;
      }
      PrefixOfSnoc(rs, pval[i] <= alphai[i]);
      rs := rs + [pval[i] <= alphai[i]];
      i := i + 1;
    }
    assert R[..] == R[..N];
  }

  /** Async: with no visible earlier rejection the threshold is exactly betai[i]. */
  lemma AsyncNothingVisible(betai: seq<real>, E: seq<int>, rs: seq<bool>)
    requires |rs| < |betai| && |rs| <= |E|
    requires CountArrived(rs, E, |rs|) == 0
    ensures AsyncAlpha(betai, E, rs) == betai[|rs|]
  {
  }

  /**
   * Async: delaying outcomes (raising E entry-wise) never raises the count of
   * visible rejections, so with a non-negative budget never raises the threshold.
   */
  lemma AsyncLaterArrivalNoLarger(betai: seq<real>, E: seq<int>, E2: seq<int>, rs: seq<bool>)
    requires |rs| < |betai| && |rs| <= |E| && |rs| <= |E2|
    requires forall j :: 0 <= j < |rs| ==> E[j] <= E2[j]
    requires betai[|rs|] >= 0.0
    ensures CountArrived(rs, E2, |rs|) <= CountArrived(rs, E, |rs|)
    ensures AsyncAlpha(betai, E2, rs) <= AsyncAlpha(betai, E, rs)
  {
    CountArrivedAntitone(rs, E, E2, |rs|);
    LondValueMonotone(betai[|rs|], CountArrived(rs, E2, |rs|), CountArrived(rs, E, |rs|));
  }

  /** Dep: a positive lag hides every earlier rejection, leaving betai[i]. */
  lemma DepPositiveLag(betai: seq<real>, L: seq<int>, rs: seq<bool>)
    requires |rs| < |betai| && |rs| < |L| && L[|rs|] > 0
    ensures DepAlpha(betai, L, rs) == betai[|rs|]
  {
  }

  /** Dep: the literal test of the source admits j exactly when L[i] <= 0. */
  lemma DepTestMeaning(j: int, li: int)
    ensures (j <= j - li) <==> li <= 0
  {
    DepTestIsDepVisible(j, li);
  }

  /** The threshold of cell (b, x) of the batch variant, d true cells in rows before b. */
  function BatchAlpha(betai: seq<real>, batchsum: seq<int>, b: int, x: int, d: nat): real
    requires 0 <= b < |batchsum| && 0 <= Offset(batchsum, b) + x < |betai|
  {
    if b == 0 then betai[x] else LondValue(betai[Offset(batchsum, b) + x], false, d)
  }

  /** The per-batch count loop: true cells of rows 0..b-1. */
  method CountCells(R: seq<seq<bool>>, b: int) returns (dsum: int)
    requires 0 <= b <= |R|
    ensures dsum == CellsBefore(R, b)
  {
    dsum := 0;
    var j := 0;
    while j <= b - 1
      invariant 0 <= j <= b
      invariant dsum == CellsBefore(R, j)
    {
      var k := 0;
      var row := 0;
      while k <= |R[j]| - 1
        invariant 0 <= k <= |R[j]|
        invariant row == CountTrue(R[j][..k])
      {
        assert R[j][..k + 1][..k] == R[j][..k];
        if R[j][k] {
          row := row + 1;
        }
        k := k + 1;
      }
      assert R[j][..k] == R[j];
      dsum := dsum + row;
      j := j + 1;
    }
  }

  /**
   * Row b of the batch output: cell x is the hypothesis at Offset(b) + x,
   * given the level BatchAlpha with d true cells in earlier rows.
   */
  predicate BatchRow(pval: seq<real>, betai: seq<real>, batchsum: seq<int>, b: int,
                     arow: seq<real>, rrow: seq<bool>, d: nat)
  {
    0 <= b < |batchsum| && |arow| == |rrow| &&
    0 <= Offset(batchsum, b) && Offset(batchsum, b) + |arow| <= |pval| <= |betai| &&
    forall x :: 0 <= x < |arow| ==>
      arow[x] == BatchAlpha(betai, batchsum, b, x, d) &&
      rrow[x] == (pval[Offset(batchsum, b) + x] <= arow[x])
  }

  /**
   * londstar_batch_faster. Row b holds batch[b] cells; cell (b, x) is the
   * hypothesis at position Offset(b) + x of the flat vectors. The unused
   * `alpha` argument is left out.
   */
  method BatchFaster(pval: seq<real>, batch: seq<int>, batchsum: seq<int>, betai: seq<real>)
    returns (alphai: seq<seq<real>>, R: seq<seq<bool>>)
    requires BatchLayout(batch, batchsum, |pval|) && |betai| >= |pval|
    ensures |alphai| == |batch| && |R| == |batch|
    ensures forall b :: 0 <= b < |batch| ==> |R[b]| == batch[b]
    ensures forall b {:trigger alphai[b]} :: 0 <= b < |batch| ==>
      BatchRow(pval, betai, batchsum, b, alphai[b], R[b], CellsBefore(R, b))
  {
    var B := |batch|;
    alphai := [];
    R := [];
    var b := 0;
    while b < B
      invariant 0 <= b <= B && |alphai| == b && |R| == b
      invariant forall j :: 0 <= j < b ==> |R[j]| == batch[j]
      invariant forall j {:trigger alphai[j]} :: 0 <= j < b ==>
        BatchRow(pval, betai, batchsum, j, alphai[j], R[j], CellsBefore(R, j))
    {
      BatchInRange(batch, batchsum, |pval|, b);
      var dsum := 0;
      if b > 0 {
        dsum := CountCells(R, b);
      }
      var off := Offset(batchsum, b);
      var arow: seq<real> := [];
      var rrow: seq<bool> := [];
      var x := 0;
      while x < batch[b]
        invariant 0 <= x <= batch[b] && |arow| == x && |rrow| == x
        invariant forall y :: 0 <= y < x ==>
          arow[y] == BatchAlpha(betai, batchsum, b, y, dsum) && rrow[y] == (pval[off + y] <= arow[y])
      {
        var a: real;
        if b == 0 {
          a := betai[x];
        } else {
          a := LondValue(betai[off + x], false, dsum);
        }
        arow := arow + [a];
        rrow := rrow + [pval[off + x] <= a];
        x := x + 1;
      }
      assert BatchRow(pval, betai, batchsum, b, arow, rrow, CellsBefore(R, b));
      CellsBeforeSnoc(R, rrow);
      alphai := alphai + [arow];
      R := R + [rrow];
      b := b + 1;
    }
  }

  /** Batch: the first batch gets the level betai[i] itself. */
  lemma BatchFirst(betai: seq<real>, batchsum: seq<int>, x: int, d: nat)
    requires 1 <= |batchsum| && 0 <= x < |betai|
    ensures BatchAlpha(betai, batchsum, 0, x, d) == betai[x]
  {
  }

  /** Batch: the count for batch b reads only rows 0..b-1. */
  lemma {:induction false} BatchCountEarlierRowsOnly(R1: seq<seq<bool>>, R2: seq<seq<bool>>, b: int)
    requires 0 <= b <= |R1| && b <= |R2| && R1[..b] == R2[..b]
    ensures CellsBefore(R1, b) == CellsBefore(R2, b)
  {
    if b > 0 {
      assert R1[..b - 1] == R1[..b][..b - 1];
      assert R2[..b - 1] == R2[..b][..b - 1];
      BatchCountEarlierRowsOnly(R1, R2, b - 1);
      assert R1[b - 1] == R1[..b][b - 1];
      assert R2[b - 1] == R2[..b][b - 1];
    }
  }

  /** The single cell of every row, in order. */
  function Column(rows: seq<seq<bool>>): (c: seq<bool>)
    requires forall b :: 0 <= b < |rows| ==> |rows[b]| == 1
    ensures |c| == |rows| && forall b :: 0 <= b < |rows| ==> c[b] == rows[b][0]
  {
    if |rows| == 0 then [] else Column(rows[..|rows| - 1]) + [rows[|rows| - 1][0]]
  }

  /** The running count over singleton rows is the count over their column. */
  lemma {:induction false} CellsBeforeColumn(R: seq<seq<bool>>, b: int)
    requires forall j :: 0 <= j < |R| ==> |R[j]| == 1
    requires 0 <= b <= |R|
    ensures CellsBefore(R, b) == CountTrue(Column(R)[..b])
  {
    if b > 0 {
      CellsBeforeColumn(R, b - 1);
      assert Column(R)[..b][..b - 1] == Column(R)[..b - 1];
      assert R[b - 1] == [R[b - 1][0]];
    }
  }

  /** With batches of size one, batch b starts at hypothesis b. */
  lemma {:induction false} SingletonOffsets(batch: seq<int>, batchsum: seq<int>, n: int, b: int)
    requires BatchLayout(batch, batchsum, n) && forall j :: 0 <= j < |batch| ==> batch[j] == 1
    requires 0 <= b < |batch|
    ensures batchsum[b] == b + 1 && Offset(batchsum, b) == b
  {
    assert batch[b] == 1;
    if b > 0 {
      SingletonOffsets(batch, batchsum, n, b - 1);
    }
  }

  /** One row of the singleton case. */
  lemma SingletonRowIsLond(pval: seq<real>, betai: seq<real>, batch: seq<int>, batchsum: seq<int>,
                           arow: seq<real>, rrow: seq<bool>, R: seq<seq<bool>>, b: int)
    requires BatchLayout(batch, batchsum, |pval|) && |betai| >= |pval|
    requires forall j :: 0 <= j < |batch| ==> batch[j] == 1
    requires 0 <= b < |batch| && b <= |R| && |batch| <= |pval|
    requires forall j :: 0 <= j < |R| ==> |R[j]| == 1
    requires |arow| == 1 && BatchRow(pval, betai, batchsum, b, arow, rrow, CellsBefore(R, b))
    ensures arow[0] == LondAlpha(betai, false, Column(R)[..b]) && rrow[0] == (pval[b] <= arow[0])
  {
    SingletonOffsets(batch, batchsum, |pval|, b);
    CellsBeforeColumn(R, b);
    var d := CellsBefore(R, b);
    assert arow[0] == BatchAlpha(betai, batchsum, b, 0, d);
    assert |Column(R)[..b]| == b;
    if b == 0 {
      assert LondAlpha(betai, false, Column(R)[..b]) == LondValue(betai[0], false, 0);
      assert LondValue(betai[0], false, 0) == betai[0] * 1.0;
    } else {
      assert arow[0] == LondValue(betai[b], false, d);
    }
  }

  /**
   * Batches of size one make LOND* batch coincide with the alternate LOND
   * variant on the flattened stream: the shared count of earlier rows becomes
   * the count of earlier discoveries.
   */
  lemma SingletonBatchesAreLond(pval: seq<real>, betai: seq<real>, batch: seq<int>, batchsum: seq<int>,
                                alphai: seq<seq<real>>, R: seq<seq<bool>>)
    requires BatchLayout(batch, batchsum, |pval|) && |betai| >= |pval| && |pval| == |batch|
    requires forall j :: 0 <= j < |batch| ==> batch[j] == 1
    requires |alphai| == |batch| && |R| == |batch|
    requires forall b :: 0 <= b < |batch| ==> |R[b]| == 1 && |alphai[b]| == 1
    requires forall b {:trigger alphai[b]} :: 0 <= b < |batch| ==>
      BatchRow(pval, betai, batchsum, b, alphai[b], R[b], CellsBefore(R, b))
    ensures forall b :: 0 <= b < |batch| ==>
      alphai[b][0] == LondAlpha(betai, false, Column(R)[..b]) && R[b][0] == (pval[b] <= alphai[b][0])
  {
    forall b | 0 <= b < |batch|
      ensures alphai[b][0] == LondAlpha(betai, false, Column(R)[..b]) && R[b][0] == (pval[b] <= alphai[b][0])
    {
      SingletonRowIsLond(pval, betai, batch, batchsum, alphai[b], R[b], R, b);
    }
  }
}
