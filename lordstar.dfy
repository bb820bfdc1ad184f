/*
 * LORD* (lordstar_async_faster, lordstar_dep_faster, lordstar_batch_faster):
 * LORD++ under asynchronous testing, local dependence and batches. Every step
 * rebuilds the list r of the earlier rejections it may see. In the async and
 * dep variants r is a std::vector<bool>, so an index j pushed onto it reads
 * back as StoredIdx(j) (0 for j == 0, 1 otherwise); the model keeps that.
 */
module LordStar {
  import opened Common
  import opened Lord

  // ---------------------------------------------------------------------
  // The async and dep variants.

  /**
   * The contents of r after the rebuild at step i: for every j < |rs| in
   * order with rs[j] and vis[j], the stored bit j != 0.
   */
  function Pushed(rs: seq<bool>, vis: seq<bool>): (r: seq<bool>)
    requires |rs| == |vis|
    ensures |r| <= |rs|
  {
    if |rs| == 0 then []
    else
      var n := |rs| - 1;
      Pushed(rs[..n], vis[..n]) + (if rs[n] && vis[n] then [n != 0] else [])
  }

  /**
   * The discount values gammai[i - r[g] - 1] of step i, one per entry of r,
   * with r[g] read back from the bit vector as StoredIdx of the pushed index.
   */
  function StarTerms(gammai: seq<real>, i: int, rs: seq<bool>, vis: seq<bool>): (t: seq<real>)
    requires |rs| == |vis| <= i <= |gammai|
    ensures |t| == |Pushed(rs, vis)|
  {
    if |rs| == 0 then []
    else
      var n := |rs| - 1;
      StarTerms(gammai, i, rs[..n], vis[..n]) + (if rs[n] && vis[n] then [gammai[i - StoredIdx(n) - 1]] else [])
  }

  /** Async visibility at step i of the first n outcomes: E[j] - 1 <= i - 1. */
  function AsyncVis(E: seq<int>, i: int, n: int): (v: seq<bool>)
    requires 0 <= n <= |E|
    ensures |v| == n
  {
    seq(n, j requires 0 <= j < n => Arrived(E[j], i))
  }

  /** Dep visibility at step i of the first n outcomes: the literal test j <= j - L[i]. */
  function DepVis(li: int, n: int): (v: seq<bool>)
    requires 0 <= n
    ensures |v| == n
  {
    seq(n, j requires 0 <= j < n => DepTest(j, li))
  }

  /** The LORD* rule at step i = |rs| given which earlier outcomes are visible. */
  function StarAlpha(gammai: seq<real>, w0: real, alpha: real, rs: seq<bool>, vis: seq<bool>): real
    requires |rs| == |vis| < |gammai|
  {
    LordRule(gammai[|rs|], w0, alpha, StarTerms(gammai, |rs|, rs, vis))
  }

  /** The async threshold at step i = |rs|. */
  function AsyncAlpha(gammai: seq<real>, E: seq<int>, w0: real, alpha: real, rs: seq<bool>): real
    requires |rs| < |gammai| && |rs| <= |E|
  {
    StarAlpha(gammai, w0, alpha, rs, AsyncVis(E, |rs|, |rs|))
  }

  /** The dep threshold at step i = |rs|. */
  function DepAlpha(gammai: seq<real>, L: seq<int>, w0: real, alpha: real, rs: seq<bool>): real
    requires |rs| < |gammai| && |rs| < |L|
  {
    StarAlpha(gammai, w0, alpha, rs, DepVis(L[|rs|], |rs|))
  }

  /** Each term is gammai[i - r[g] - 1] with r[g] the bit actually stored. */
  lemma {:induction false} StarTermsAt(gammai: seq<real>, i: int, rs: seq<bool>, vis: seq<bool>)
    requires |rs| == |vis| <= i <= |gammai|
    ensures forall g :: 0 <= g < |Pushed(rs, vis)| ==>
              0 <= i - BitValue(Pushed(rs, vis)[g]) - 1 < |gammai| &&
              StarTerms(gammai, i, rs, vis)[g] == gammai[i - BitValue(Pushed(rs, vis)[g]) - 1]
    ensures forall g :: 1 <= g < |Pushed(rs, vis)| ==> Pushed(rs, vis)[g]
  {
    if |rs| > 0 {
      var n := |rs| - 1;
      StarTermsAt(gammai, i, rs[..n], vis[..n]);
      if n == 0 {
        assert Pushed(rs[..n], vis[..n]) == [];
      }
    }
  }

  /** The source's async push test for step i, over the decisions made so far. */
  method PushArrived(R: seq<bool>, E: seq<int>, i: int) returns (r: seq<bool>)
    requires i == |R| <= |E|
    ensures r == Pushed(R, AsyncVis(E, i, i))
  {
    ghost var vis := AsyncVis(E, i, i);
    r := [];
    var j := 0;
    while j <= i - 1
      invariant 0 <= j <= i
      invariant r == Pushed(R[..j], vis[..j])
    {
      assert R[..j + 1][..j] == R[..j] && vis[..j + 1][..j] == vis[..j];
      if R[j] && (E[j] - 1 <= i - 1) {
        r := r + [j != 0];
      }
      j := j + 1;
    }
    assert R[..j] == R && vis[..j] == vis;
  }

  /** The source's dep push test for step i, over the decisions made so far. */
  method PushDep(R: seq<bool>, li: int, i: int) returns (r: seq<bool>)
    requires i == |R|
    ensures r == Pushed(R, DepVis(li, i))
  {
    ghost var vis := DepVis(li, i);
    r := [];
    var j := 0;
    while j <= i - 1
      invariant 0 <= j <= i
      invariant r == Pushed(R[..j], vis[..j])
    {
      assert R[..j + 1][..j] == R[..j] && vis[..j + 1][..j] == vis[..j];
      if R[j] && (j <= j - li) {
        r := r + [j != 0];
      }
      j := j + 1;
    }
    assert R[..j] == R && vis[..j] == vis;
  }

  /**
   * The threshold of step i from the rebuilt r: the three branches
   * r.size() == 0, == 1 and >= 2 of the source, with the gammaisum loop.
   */
  method StarThreshold(gammai: seq<real>, w0: real, alpha: real, r: seq<bool>, i: int,
                       ghost rs: seq<bool>, ghost vis: seq<bool>)
    returns (a: real)
    requires 1 <= i == |rs| == |vis| < |gammai| && r == Pushed(rs, vis)
    ensures a == StarAlpha(gammai, w0, alpha, rs, vis)
  {
    ghost var terms := StarTerms(gammai, i, rs, vis);
    StarTermsAt(gammai, i, rs, vis);
    LordRuleCases(gammai[i], w0, alpha, terms);
    if |r| <= 1 {
      if |r| > 0 {
        a := gammai[i] * w0 + (alpha - w0) * gammai[i - BitValue(r[0]) - 1];
      } else {
        a := gammai[i] * w0 + (alpha - w0) * 0.0;
      }
    } else {
      var gammaisum := StarGammaiSum(gammai, r, i, rs, vis);
      a := gammai[i] * w0 + (alpha - w0) * gammai[i - BitValue(r[0]) - 1] + alpha * gammaisum;
    }
  }

  /** The gammaisum loop of the r.size() >= 2 branch: the terms after the first. */
  method StarGammaiSum(gammai: seq<real>, r: seq<bool>, i: int, ghost rs: seq<bool>, ghost vis: seq<bool>)
    returns (gammaisum: real)
    requires 1 <= i == |rs| == |vis| < |gammai| && r == Pushed(rs, vis) && |r| >= 1
    ensures gammaisum == Sum(StarTerms(gammai, i, rs, vis)[1..])
  {
    ghost var terms := StarTerms(gammai, i, rs, vis);
    StarTermsAt(gammai, i, rs, vis);
    gammaisum := 0.0;
    var bound := |r|;
    var g := 1;
    while g < bound
      invariant 1 <= g <= bound
      invariant gammaisum == Sum(terms[1..][..g - 1])
    {
      SumSnoc(terms[1..], g - 1);
      gammaisum := gammaisum + gammai[i - BitValue(r[g]) - 1];
      g := g + 1;
    }
    assert terms[1..][..bound - 1] == terms[1..];
  }

  /** One more async step keeps the recurrence on every prefix. */
  lemma AsyncExtend(pval: seq<real>, gammai: seq<real>, E: seq<int>, w0: real, alpha: real,
                    alphai: seq<real>, rs: seq<bool>, a: real, b: bool)
    requires |rs| == |alphai| < |pval| <= |gammai| && |pval| <= |E|
    requires forall k {:trigger alphai[k]} :: 0 <= k < |rs| ==>
               alphai[k] == AsyncAlpha(gammai, E, w0, alpha, rs[..k]) && rs[k] == (pval[k] <= alphai[k])
    requires a == AsyncAlpha(gammai, E, w0, alpha, rs) && b == (pval[|rs|] <= a)
    ensures forall k {:trigger (alphai + [a])[k]} :: 0 <= k < |rs| + 1 ==>
              (alphai + [a])[k] == AsyncAlpha(gammai, E, w0, alpha, (rs + [b])[..k]) &&
              (rs + [b])[k] == (pval[k] <= (alphai + [a])[k])
  {
    PrefixOfSnoc(rs, b);
  }

  /** lordstar_async_faster. The outputs grow by one entry per step. */
  method AsyncFaster(pval: seq<real>, E: seq<int>, gammai: seq<real>, w0: real, alpha: real)
    returns (alphai: seq<real>, R: seq<bool>)
    requires |pval| >= 1 && |gammai| >= |pval| && |E| >= |pval|
    ensures |alphai| == |pval| && |R| == |pval|
    ensures alphai[0] == gammai[0] * w0
    ensures forall k {:trigger alphai[k]} :: 0 <= k < |pval| ==>
              alphai[k] == AsyncAlpha(gammai, E, w0, alpha, R[..k]) && R[k] == (pval[k] <= alphai[k])
  {
    var N := |pval|;
    alphai := [gammai[0] * w0];
    R := [pval[0] <= alphai[0]];
    assert StarTerms(gammai, 0, [], []) == [];
    assert R[..0] == [];
    var i := 1;
    while i < N
      invariant 1 <= i <= N && |alphai| == i && |R| == i
      invariant alphai[0] == gammai[0] * w0
      invariant forall k {:trigger alphai[k]} :: 0 <= k < i ==>
                  alphai[k] == AsyncAlpha(gammai, E, w0, alpha, R[..k]) && R[k] == (pval[k] <= alphai[k])
    {
      var r := PushArrived(R, E, i);
      var a := StarThreshold(gammai, w0, alpha, r, i, R, AsyncVis(E, i, i));
      var b := pval[i] <= a;
      AsyncExtend(pval, gammai, E, w0, alpha, alphai, R, a, b);
      alphai := alphai + [a];
      R := R + [b];
      i := i + 1;
    }
  }

  /** One more dep step keeps the recurrence on every prefix. */
  lemma DepExtend(pval: seq<real>, gammai: seq<real>, L: seq<int>, w0: real, alpha: real,
                  alphai: seq<real>, rs: seq<bool>, a: real, b: bool)
    requires |rs| == |alphai| < |pval| <= |gammai| && |pval| <= |L|
    requires forall k {:trigger alphai[k]} :: 0 <= k < |rs| ==>
               alphai[k] == DepAlpha(gammai, L, w0, alpha, rs[..k]) && rs[k] == (pval[k] <= alphai[k])
    requires a == DepAlpha(gammai, L, w0, alpha, rs) && b == (pval[|rs|] <= a)
    ensures forall k {:trigger (alphai + [a])[k]} :: 0 <= k < |rs| + 1 ==>
              (alphai + [a])[k] == DepAlpha(gammai, L, w0, alpha, (rs + [b])[..k]) &&
              (rs + [b])[k] == (pval[k] <= (alphai + [a])[k])
  {
    PrefixOfSnoc(rs, b);
  }

  /** lordstar_dep_faster. The outputs grow by one entry per step. */
  method DepFaster(pval: seq<real>, L: seq<int>, gammai: seq<real>, w0: real, alpha: real)
    returns (alphai: seq<real>, R: seq<bool>)
    requires |pval| >= 1 && |gammai| >= |pval| && |L| >= |pval|
    ensures |alphai| == |pval| && |R| == |pval|
    ensures alphai[0] == gammai[0] * w0
    ensures forall k {:trigger alphai[k]} :: 0 <= k < |pval| ==>
              alphai[k] == DepAlpha(gammai, L, w0, alpha, R[..k]) && R[k] == (pval[k] <= alphai[k])
  {
    var N := |pval|;
    alphai := [gammai[0] * w0];
    R := [pval[0] <= alphai[0]];
    assert StarTerms(gammai, 0, [], []) == [];
    assert R[..0] == [];
    var i := 1;
    while i < N
      invariant 1 <= i <= N && |alphai| == i && |R| == i
      invariant alphai[0] == gammai[0] * w0
      invariant forall k {:trigger alphai[k]} :: 0 <= k < i ==>
                  alphai[k] == DepAlpha(gammai, L, w0, alpha, R[..k]) && R[k] == (pval[k] <= alphai[k])
    {
      var r := PushDep(R, L[i], i);
      var a := StarThreshold(gammai, w0, alpha, r, i, R, DepVis(L[i], i));
      var b := pval[i] <= a;
      DepExtend(pval, gammai, L, w0, alpha, alphai, R, a, b);
      alphai := alphai + [a];
      R := R + [b];
      i := i + 1;
    }
  }

  /** The indices j < |rs| with rs[j] and vis[j], in increasing order: what is pushed onto r. */
  function VisIndices(rs: seq<bool>, vis: seq<bool>): (t: seq<nat>)
    requires |rs| == |vis|
    ensures forall g :: 0 <= g < |t| ==> t[g] < |rs|
  {
    if |rs| == 0 then []
    else
      var n := |rs| - 1;
      VisIndices(rs[..n], vis[..n]) + (if rs[n] && vis[n] then [n] else [])
  }

  /** The bit vector r stores, for each pushed index, whether it is non-zero. */
  lemma {:induction false} PushedStoresIndices(rs: seq<bool>, vis: seq<bool>)
    requires |rs| == |vis|
    ensures |Pushed(rs, vis)| == |VisIndices(rs, vis)|
    ensures forall g :: 0 <= g < |Pushed(rs, vis)| ==> Pushed(rs, vis)[g] == (VisIndices(rs, vis)[g] != 0)
  {
    if |rs| > 0 {
      var n := |rs| - 1;
      PushedStoresIndices(rs[..n], vis[..n]);
    }
  }

  /** Under async visibility the pushed indices are the arrived rejections. */
  lemma {:induction false} AsyncVisIndices(rs: seq<bool>, E: seq<int>, i: int)
    requires |rs| <= |E|
    ensures VisIndices(rs, AsyncVis(E, i, |rs|)) == Visible(rs, E, i)
  {
    if |rs| > 0 {
      var n := |rs| - 1;
      AsyncVisIndices(rs[..n], E, i);
      assert AsyncVis(E, i, |rs|)[..n] == AsyncVis(E, i, n);
    }
  }

  /** Under the dep test the pushed indices are all rejections when L[i] <= 0, and none otherwise. */
  lemma {:induction false} DepVisIndices(rs: seq<bool>, li: int)
    ensures VisIndices(rs, DepVis(li, |rs|)) == if DepVisible(li) then Rejected(rs) else []
  {
    if |rs| > 0 {
      var n := |rs| - 1;
      DepVisIndices(rs[..n], li);
      assert DepVis(li, |rs|)[..n] == DepVis(li, n);
      DepTestIsDepVisible(n, li);
    }
  }

  /**
   * The terms of step i, with t the pushed indices: one term per entry of
   * t, the first is gammai[i - r[0] - 1], and since every r[g] with g >= 1
   * reads back as 1, the later ones sum to (|t| - 1) * gammai[i - 2].
   */
  lemma StarTermsShape(gammai: seq<real>, i: int, rs: seq<bool>, vis: seq<bool>)
    requires |rs| == |vis| <= i <= |gammai|
    ensures var t := VisIndices(rs, vis); var terms := StarTerms(gammai, i, rs, vis);
            |terms| == |t| &&
            (|t| >= 1 ==> 0 <= i - StoredIdx(t[0]) - 1 < i && terms[0] == gammai[i - StoredIdx(t[0]) - 1]) &&
            (|t| >= 2 ==> i >= 2 && Sum(terms[1..]) == ((|t| - 1) as real) * gammai[i - 2])
  {
    var t := VisIndices(rs, vis);
    var terms := StarTerms(gammai, i, rs, vis);
    PushedStoresIndices(rs, vis);
    if |t| >= 1 {
      StarTermsAt(gammai, i, rs, vis);
      BitValueOfStored(t[0]);
    }
    if |t| >= 2 {
      StarTermsRest(gammai, i, rs, vis);
    }
  }

  /** Every stored entry after the first is true, so each later term is gammai[i - 2]. */
  lemma StarTermsRest(gammai: seq<real>, i: int, rs: seq<bool>, vis: seq<bool>)
    requires |rs| == |vis| <= i <= |gammai| && |Pushed(rs, vis)| >= 2
    ensures i >= 2 && Sum(StarTerms(gammai, i, rs, vis)[1..]) == ((|Pushed(rs, vis)| - 1) as real) * gammai[i - 2]
  {
    var terms := StarTerms(gammai, i, rs, vis);
    var p := Pushed(rs, vis);
    assert p[1] && 0 <= i - BitValue(p[1]) - 1 by {
      StarTermsAt(gammai, i, rs, vis);
    }
    var rest := terms[1..];
    assert |rest| == |p| - 1;
    forall k | 0 <= k < |rest|
      ensures rest[k] == gammai[i - 2]
    {
      StarTermsAt(gammai, i, rs, vis);
      assert rest[k] == terms[k + 1];
      assert p[k + 1];
    }
    SumConstant(rest, gammai[i - 2]);
  }

  /** Dep: a positive lag L[i] hides every earlier rejection, leaving w0 * gammai[i]. */
  lemma DepPositiveLag(gammai: seq<real>, L: seq<int>, w0: real, alpha: real, rs: seq<bool>)
    requires |rs| < |gammai| && |rs| < |L| && L[|rs|] > 0
    ensures DepAlpha(gammai, L, w0, alpha, rs) == w0 * gammai[|rs|]
  {
    DepVisIndices(rs, L[|rs|]);
    PushedStoresIndices(rs, DepVis(L[|rs|], |rs|));
    LordRuleCases(gammai[|rs|], w0, alpha, StarTerms(gammai, |rs|, rs, DepVis(L[|rs|], |rs|)));
  }

  /** Async: before any arrived rejection the threshold is w0 * gammai[i]. */
  lemma AsyncNothingVisible(gammai: seq<real>, E: seq<int>, w0: real, alpha: real, rs: seq<bool>)
    requires |rs| < |gammai| && |rs| <= |E| && |Visible(rs, E, |rs|)| == 0
    ensures AsyncAlpha(gammai, E, w0, alpha, rs) == w0 * gammai[|rs|]
  {
    AsyncVisIndices(rs, E, |rs|);
    PushedStoresIndices(rs, AsyncVis(E, |rs|, |rs|));
    LordRuleCases(gammai[|rs|], w0, alpha, StarTerms(gammai, |rs|, rs, AsyncVis(E, |rs|, |rs|)));
  }

  // ---------------------------------------------------------------------
  // The batch variant. Row b of the output holds the batch[b] hypotheses at
  // positions Offset(b) .. Offset(b) + batch[b] - 1 of the flat vectors.

  /**
   * rcum = cumsum(rowSums(R)) as computed before batch b = |rows| is written:
   * rows b and later are still all false, so rcum[y] counts the true cells of
   * rows 0..min(y, b - 1).
   */
  function Rcum(rows: seq<seq<bool>>, B: int): (rc: seq<int>)
    requires |rows| <= B
    ensures |rc| == B
  {
    seq(B, y requires 0 <= y < B => CellsBefore(rows, MinInt(y + 1, |rows|)))
  }

  /** r = {y < m : rcum[y] >= y}, in increasing order. */
  function BatchList(rcum: seq<int>, m: int): (r: seq<int>)
    requires 0 <= m <= |rcum|
    ensures forall j :: 0 <= j < |r| ==> 0 <= r[j] < m
  {
    if m == 0 then []
    else BatchList(rcum, m - 1) + (if rcum[m - 1] >= m - 1 then [m - 1] else [])
  }

  /** Every index g - batchsum[r[j]] read by the cell lies inside gammai. */
  predicate BatchIndicesOk(gammai: seq<real>, batchsum: seq<int>, g: int, r: seq<int>)
  {
    forall j :: 0 <= j < |r| ==> 0 <= r[j] < |batchsum| && 0 <= g - batchsum[r[j]] < |gammai|
  }

  /**
   * The terms gammai[g - batchsum[y]] for the y listed by BatchList(rcum, m),
   * or None if one of those reads lies outside gammai.
   */
  function BatchTerms(gammai: seq<real>, batchsum: seq<int>, rcum: seq<int>, g: int, m: int): (t: Option<seq<real>>)
    requires 0 <= m <= |rcum| <= |batchsum|
    ensures t.Some? ==> |t.value| == |BatchList(rcum, m)|
  {
    if m == 0 then Some([])
    else
      var prev := BatchTerms(gammai, batchsum, rcum, g, m - 1);
      if rcum[m - 1] < m - 1 then prev
      else if prev.None? || !(0 <= g - batchsum[m - 1] < |gammai|) then None
      else Some(prev.value + [gammai[g - batchsum[m - 1]]])
  }

  /**
   * The threshold of cell (b, x), b >= 1, given the rows 0..b-1: the LORD rule
   * over the terms of r, with max(rcum) bounding the scan of rcum. None when
   * the scan reads past the end of rcum or a term lies outside gammai.
   */
  function BatchCellAlpha(gammai: seq<real>, batchsum: seq<int>, w0: real, alpha: real,
                          rows: seq<seq<bool>>, x: int): Option<real>
    requires 1 <= |rows| < |batchsum| && 0 <= Offset(batchsum, |rows|) + x < |gammai|
  {
    var rcum := Rcum(rows, |batchsum|);
    var m := MaxOf(rcum);
    if m > |rcum| then None
    else
      var g := Offset(batchsum, |rows|) + x;
      var t := BatchTerms(gammai, batchsum, rcum, g, MaxInt(m, 0));
      if t.None? then None else Some(LordRule(gammai[g], w0, alpha, t.value))
  }

  /** The list and the terms agree entry by entry, and the terms exist exactly when every read is in range. */
  lemma {:induction false} BatchTermsAt(gammai: seq<real>, batchsum: seq<int>, rcum: seq<int>, g: int, m: int)
    requires 0 <= m <= |rcum| <= |batchsum|
    ensures var r := BatchList(rcum, m); var t := BatchTerms(gammai, batchsum, rcum, g, m);
            (t.Some? <==> BatchIndicesOk(gammai, batchsum, g, r)) &&
            (t.Some? ==> forall j :: 0 <= j < |r| ==> t.value[j] == gammai[g - batchsum[r[j]]])
  {
    if m > 0 {
      BatchTermsAt(gammai, batchsum, rcum, g, m - 1);
      var r' := BatchList(rcum, m - 1);
      var r := BatchList(rcum, m);
      if rcum[m - 1] >= m - 1 {
        assert r == r' + [m - 1];
        assert r[|r'|] == m - 1;
        assert forall j :: 0 <= j < |r'| ==> r[j] == r'[j];
        if BatchIndicesOk(gammai, batchsum, g, r') && 0 <= g - batchsum[m - 1] < |gammai| {
          assert BatchIndicesOk(gammai, batchsum, g, r);
        }
      } else {
        assert r == r';
      }
    }
  }

  /** The members of r: exactly the y < m with rcum[y] >= y. */
  lemma {:induction false} BatchListMembers(rcum: seq<int>, m: int, y: int)
    requires 0 <= m <= |rcum|
    ensures y in BatchList(rcum, m) <==> 0 <= y < m && rcum[y] >= y
  {
    if m > 0 {
      BatchListMembers(rcum, m - 1, y);
    }
  }

  /** max(rcum) is the number of rejections in the rows written so far. */
  lemma RcumMax(rows: seq<seq<bool>>, B: int)
    requires 1 <= |rows| <= B
    ensures MaxOf(Rcum(rows, B)) == CellsBefore(rows, |rows|)
  {
    var rc := Rcum(rows, B);
    var d := CellsBefore(rows, |rows|);
    forall y | 0 <= y < B
      ensures rc[y] <= d
    {
      CellsBeforeMonotone(rows, MinInt(y + 1, |rows|), |rows|);
    }
    assert MinInt(B - 1 + 1, |rows|) == |rows|;
    assert rc[B - 1] == CellsBefore(rows, MinInt(B - 1 + 1, |rows|));
  }

  /**
   * With more than b rejections before batch b >= 1 a cell has no threshold:
   * either the scan of rcum runs past its B entries, or y = b is listed in r
   * (rcum[b] is the full count, which is at least b) and
   * gammai[g - batchsum[b]] lies before the start of gammai.
   */
  lemma BatchCellOverrun(gammai: seq<real>, batch: seq<int>, batchsum: seq<int>, n: int,
                         w0: real, alpha: real, rows: seq<seq<bool>>, x: int)
    requires BatchLayout(batch, batchsum, n) && 1 <= |rows| < |batch|
    requires 0 <= x < batch[|rows|] && Offset(batchsum, |rows|) + x < |gammai|
    requires CellsBefore(rows, |rows|) > |rows|
    ensures BatchCellAlpha(gammai, batchsum, w0, alpha, rows, x).None?
  {
    var b := |rows|;
    var B := |batchsum|;
    var d := CellsBefore(rows, b);
    var rcum := Rcum(rows, B);
    var g := Offset(batchsum, b) + x;
    RcumMax(rows, B);
    if d <= B {
      BatchListHasB(gammai, batch, batchsum, n, rows, x);
      BatchTermsAt(gammai, batchsum, rcum, g, d);
      assert MaxInt(MaxOf(rcum), 0) == d;
    }
  }

  /** The negative read of BatchCellOverrun: y = b is listed in r, and g - batchsum[b] < 0. */
  lemma BatchListHasB(gammai: seq<real>, batch: seq<int>, batchsum: seq<int>, n: int,
                      rows: seq<seq<bool>>, x: int)
    requires BatchLayout(batch, batchsum, n) && 1 <= |rows| < |batch|
    requires 0 <= x < batch[|rows|]
    requires |rows| < CellsBefore(rows, |rows|) <= |batchsum|
    ensures !BatchIndicesOk(gammai, batchsum, Offset(batchsum, |rows|) + x,
                            BatchList(Rcum(rows, |batchsum|), CellsBefore(rows, |rows|)))
  {
    var b := |rows|;
    var d := CellsBefore(rows, b);
    var rcum := Rcum(rows, |batchsum|);
    var r := BatchList(rcum, d);
    BatchInRange(batch, batchsum, n, b);
    assert MinInt(b + 1, b) == b;
    assert rcum[b] == d;
    BatchListMembers(rcum, d, b);
    var j :| 0 <= j < |r| && r[j] == b;
    assert Offset(batchsum, b) + x - batchsum[r[j]] < 0;
  }

  /** With at most b rejections before batch b >= 1 every read of a cell is in range. */
  lemma BatchCellInRange(gammai: seq<real>, batch: seq<int>, batchsum: seq<int>, n: int,
                         w0: real, alpha: real, rows: seq<seq<bool>>, x: int)
    requires BatchLayout(batch, batchsum, n) && 1 <= |rows| < |batch|
    requires 0 <= x < batch[|rows|] && Offset(batchsum, |rows|) + x < |gammai|
    requires CellsBefore(rows, |rows|) <= |rows|
    ensures BatchCellAlpha(gammai, batchsum, w0, alpha, rows, x).Some?
  {
    var b := |rows|;
    var B := |batchsum|;
    var d := CellsBefore(rows, b);
    var rcum := Rcum(rows, B);
    var g := Offset(batchsum, b) + x;
    RcumMax(rows, B);
    var r := BatchList(rcum, d);
    BatchTermsAt(gammai, batchsum, rcum, g, d);
    forall j | 0 <= j < |r|
      ensures 0 <= r[j] < B && 0 <= g - batchsum[r[j]] < |gammai|
    {
      BatchsumMonotone(batch, batchsum, n, r[j], b - 1);
    }
    assert BatchIndicesOk(gammai, batchsum, g, r);
  }

  /** A cell of batch b >= 1 has a threshold exactly when the rows before it hold at most b rejections. */
  lemma BatchCellDefined(gammai: seq<real>, batch: seq<int>, batchsum: seq<int>, n: int,
                         w0: real, alpha: real, rows: seq<seq<bool>>, x: int)
    requires BatchLayout(batch, batchsum, n) && 1 <= |rows| < |batch|
    requires 0 <= x < batch[|rows|] && Offset(batchsum, |rows|) + x < |gammai|
    ensures BatchCellAlpha(gammai, batchsum, w0, alpha, rows, x).Some? <==> CellsBefore(rows, |rows|) <= |rows|
  {
    if CellsBefore(rows, |rows|) <= |rows| {
      BatchCellInRange(gammai, batch, batchsum, n, w0, alpha, rows, x);
    } else {
      BatchCellOverrun(gammai, batch, batchsum, n, w0, alpha, rows, x);
    }
  }

  /** rcum = cumsum(rowSums(R)) over the B rows of the matrix, of which only |R| are written. */
  method RcumOf(R: seq<seq<bool>>, B: int) returns (rcum: seq<int>)
    requires |R| <= B
    ensures rcum == Rcum(R, B)
  {
    rcum := [];
    var run := 0;
    var y := 0;
    while y < B
      invariant 0 <= y <= B && |rcum| == y
      invariant run == CellsBefore(R, MinInt(y, |R|))
      invariant forall k :: 0 <= k < y ==> rcum[k] == CellsBefore(R, MinInt(k + 1, |R|))
    {
      if y < |R| {
        run := run + CountTrue(R[y]);
      }
      rcum := rcum + [run];
      y := y + 1;
    }
  }

  /** The scan building r: the y < m with rcum[y] >= y. */
  method BatchListOf(rcum: seq<int>, m: int) returns (r: seq<int>)
    requires 0 <= m <= |rcum|
    ensures r == BatchList(rcum, m)
  {
    r := [];
    var y := 0;
    while y < m
      invariant 0 <= y <= m && r == BatchList(rcum, y)
    {
      if rcum[y] >= y {
        r := r + [y];
      }
      y := y + 1;
    }
  }

  /**
   * The threshold of one cell from r, in the three branches of the source;
   * ok is false when one of the terms' reads lies outside gammai.
   */
  method BatchThreshold(gammai: seq<real>, batchsum: seq<int>, w0: real, alpha: real, r: seq<int>, g: int,
                        ghost rcum: seq<int>, ghost m: int)
    returns (ok: bool, a: real)
    requires 0 <= m <= |rcum| <= |batchsum| && r == BatchList(rcum, m) && 0 <= g < |gammai|
    ensures ok == BatchTerms(gammai, batchsum, rcum, g, m).Some?
    ensures ok ==> a == LordRule(gammai[g], w0, alpha, BatchTerms(gammai, batchsum, rcum, g, m).value)
  {
    if |r| <= 1 {
      ok, a := BatchThresholdLow(gammai, batchsum, w0, alpha, r, g, rcum, m);
    } else {
      ok, a := BatchThresholdHigh(gammai, batchsum, w0, alpha, r, g, rcum, m);
    }
  }

  /** BatchThreshold with at most one listed batch: w0 * gammai[g] + (alpha - w0) * simul. */
  method BatchThresholdLow(gammai: seq<real>, batchsum: seq<int>, w0: real, alpha: real, r: seq<int>, g: int,
                           ghost rcum: seq<int>, ghost m: int)
    returns (ok: bool, a: real)
    requires 0 <= m <= |rcum| <= |batchsum| && r == BatchList(rcum, m) && 0 <= g < |gammai| && |r| <= 1
    ensures ok == BatchTerms(gammai, batchsum, rcum, g, m).Some?
    ensures ok ==> a == LordRule(gammai[g], w0, alpha, BatchTerms(gammai, batchsum, rcum, g, m).value)
  {
    BatchTermsAt(gammai, batchsum, rcum, g, m);
    ghost var t := BatchTerms(gammai, batchsum, rcum, g, m);
    a := 0.0;
    if |r| > 0 {
      if !(0 <= g - batchsum[r[0]] < |gammai|) {
        return false, a;
      }
      assert BatchIndicesOk(gammai, batchsum, g, r);
      LordRuleCases(gammai[g], w0, alpha, t.value);
      a := gammai[g] * w0 + (alpha - w0) * gammai[g - batchsum[r[0]]];
    } else {
      assert BatchIndicesOk(gammai, batchsum, g, r);
      var simul := 0.0;
      a := gammai[g] * w0 + (alpha - w0) * simul;
    }
    ok := true;
  }

  /** BatchThreshold with two or more listed batches: the gammaisum loop over r[1..]. */
  method BatchThresholdHigh(gammai: seq<real>, batchsum: seq<int>, w0: real, alpha: real, r: seq<int>, g: int,
                            ghost rcum: seq<int>, ghost m: int)
    returns (ok: bool, a: real)
    requires 0 <= m <= |rcum| <= |batchsum| && r == BatchList(rcum, m) && 0 <= g < |gammai| && |r| >= 2
    ensures ok == BatchTerms(gammai, batchsum, rcum, g, m).Some?
    ensures ok ==> a == LordRule(gammai[g], w0, alpha, BatchTerms(gammai, batchsum, rcum, g, m).value)
  {
    BatchTermsAt(gammai, batchsum, rcum, g, m);
    ghost var t := BatchTerms(gammai, batchsum, rcum, g, m);
    a := 0.0;
    var gammaisum;
    ok, gammaisum := BatchGammaiSum(gammai, batchsum, r, g, rcum, m);
    if !ok {
      return false, a;
    }
    if !(0 <= g - batchsum[r[0]] < |gammai|) {
      return false, a;
    }
    assert BatchIndicesOk(gammai, batchsum, g, r);
    LordRuleCases(gammai[g], w0, alpha, t.value);
    a := gammai[g] * w0 + (alpha - w0) * gammai[g - batchsum[r[0]]] + alpha * gammaisum;
  }

  /**
   * The loop of the high branch: gammaisum over the listed batches after the
   * first, with ok false at the first read outside gammai.
   */
  method BatchGammaiSum(gammai: seq<real>, batchsum: seq<int>, r: seq<int>, g: int,
                        ghost rcum: seq<int>, ghost m: int)
    returns (ok: bool, gammaisum: real)
    requires 0 <= m <= |rcum| <= |batchsum| && r == BatchList(rcum, m) && |r| >= 1
    ensures ok <==> forall k :: 1 <= k < |r| ==> 0 <= g - batchsum[r[k]] < |gammai|
    ensures ok && BatchTerms(gammai, batchsum, rcum, g, m).Some? ==>
              gammaisum == Sum(BatchTerms(gammai, batchsum, rcum, g, m).value[1..])
  {
    BatchTermsAt(gammai, batchsum, rcum, g, m);
    ghost var t := BatchTerms(gammai, batchsum, rcum, g, m);
    gammaisum := 0.0;
    var bound := |r|;
    var j := 1;
    while j < bound
      invariant 1 <= j <= bound
      invariant forall k :: 1 <= k < j ==> 0 <= g - batchsum[r[k]] < |gammai|
      invariant t.Some? ==> gammaisum == Sum(t.value[1..][..j - 1])
    {
      if !(0 <= g - batchsum[r[j]] < |gammai|) {
        return false, gammaisum;
      }
      if t.Some? {
        SumSnoc(t.value[1..], j - 1);
      }
      gammaisum := gammaisum + gammai[g - batchsum[r[j]]];
      j := j + 1;
    }
    if t.Some? {
      assert t.value[1..][..bound - 1] == t.value[1..];
    }
    ok := true;
  }

  /**
   * Row b = |rows| of the batch output given the rows before it: cell x is
   * the hypothesis at Offset(b) + x, given the level gammai[x] * w0 in the first
   * batch and at BatchCellAlpha afterwards.
   */
  ghost predicate BatchStarRow(pval: seq<real>, gammai: seq<real>, batchsum: seq<int>, w0: real, alpha: real,
                               rows: seq<seq<bool>>, arow: seq<real>, rrow: seq<bool>)
  {
    var b := |rows|;
    b < |batchsum| && |arow| == |rrow| &&
    0 <= Offset(batchsum, b) && Offset(batchsum, b) + |arow| <= |pval| <= |gammai| &&
    forall x {:trigger arow[x]} :: 0 <= x < |arow| ==>
      (if b == 0 then arow[x] == gammai[x] * w0
       else BatchCellAlpha(gammai, batchsum, w0, alpha, rows, x) == Some(arow[x])) &&
      rrow[x] == (pval[Offset(batchsum, b) + x] <= arow[x])
  }

  /** The first batch: gammai[i] * w0 for every hypothesis in it. */
  method BatchFirstRow(pval: seq<real>, batch: seq<int>, batchsum: seq<int>, gammai: seq<real>,
                       w0: real, alpha: real)
    returns (arow: seq<real>, rrow: seq<bool>)
    requires BatchLayout(batch, batchsum, |pval|) && |gammai| >= |pval|
    ensures |arow| == batch[0] && BatchStarRow(pval, gammai, batchsum, w0, alpha, [], arow, rrow)
  {
    BatchInRange(batch, batchsum, |pval|, 0);
    arow := [];
    rrow := [];
    var i := 0;
    while i < batch[0]
      invariant 0 <= i <= batch[0] && |arow| == i && |rrow| == i
      invariant forall x {:trigger arow[x]} :: 0 <= x < i ==> arow[x] == gammai[x] * w0 && rrow[x] == (pval[x] <= arow[x])
    {
      var a := gammai[i] * w0;
      arow := arow + [a];
      rrow := rrow + [pval[i] <= a];
      i := i + 1;
    }
  }

  /**
   * Batch b = |R| >= 1: rcum is computed once, then every cell rebuilds r and
   * computes its threshold. ok is false when a cell reads out of range.
   */
  method BatchLaterRow(pval: seq<real>, batch: seq<int>, batchsum: seq<int>, gammai: seq<real>,
                       w0: real, alpha: real, R: seq<seq<bool>>)
    returns (arow: seq<real>, rrow: seq<bool>, ok: bool)
    requires BatchLayout(batch, batchsum, |pval|) && |gammai| >= |pval| && 1 <= |R| < |batch|
    ensures ok ==> |arow| == batch[|R|] && BatchStarRow(pval, gammai, batchsum, w0, alpha, R, arow, rrow)
    ensures !ok ==> exists x :: 0 <= x < batch[|R|] && BatchCellAlpha(gammai, batchsum, w0, alpha, R, x).None?
  {
    var b := |R|;
    var B := |batch|;
    BatchInRange(batch, batchsum, |pval|, b);
    var off := batchsum[b - 1];
    assert off == Offset(batchsum, b);
    var rcum := RcumOf(R, B);
    arow := [];
    rrow := [];
    var x := 0;
    while x < batch[b]
      invariant 0 <= x <= batch[b] && |arow| == x && |rrow| == x
      invariant forall y {:trigger arow[y]} :: 0 <= y < x ==>
                  BatchCellAlpha(gammai, batchsum, w0, alpha, R, y) == Some(arow[y]) &&
                  rrow[y] == (pval[off + y] <= arow[y])
    {
      var m := MaxOf(rcum);
      if m > |rcum| {
        assert BatchCellAlpha(gammai, batchsum, w0, alpha, R, x).None?;
        return arow, rrow, false;
      }
      var r: seq<int> := [];
      if m > 0 {
        r := BatchListOf(rcum, m);
      }
      var cellOk, a := BatchThreshold(gammai, batchsum, w0, alpha, r, off + x, rcum, MaxInt(m, 0));
      if !cellOk {
        assert BatchCellAlpha(gammai, batchsum, w0, alpha, R, x).None?;
        return arow, rrow, false;
      }
      assert BatchCellAlpha(gammai, batchsum, w0, alpha, R, x) == Some(a);
      arow := arow + [a];
      rrow := rrow + [pval[off + x] <= a];
      x := x + 1;
    }
    ok := true;
  }

  /** alphai and R hold the first |R| batches, each row following BatchStarRow. */
  ghost predicate IsBatchRun(pval: seq<real>, batch: seq<int>, batchsum: seq<int>, gammai: seq<real>,
                             w0: real, alpha: real, alphai: seq<seq<real>>, R: seq<seq<bool>>)
    decreases |R|
  {
    |alphai| == |R| <= |batch| &&
    (|R| == 0 ||
     (IsBatchRun(pval, batch, batchsum, gammai, w0, alpha, alphai[..|R| - 1], R[..|R| - 1]) &&
      |R[|R| - 1]| == batch[|R| - 1] &&
      BatchStarRow(pval, gammai, batchsum, w0, alpha, R[..|R| - 1], alphai[|R| - 1], R[|R| - 1])))
  }

  /** Every row of a run follows BatchStarRow over the rows before it. */
  lemma {:induction false} BatchRunRows(pval: seq<real>, batch: seq<int>, batchsum: seq<int>, gammai: seq<real>,
                                        w0: real, alpha: real, alphai: seq<seq<real>>, R: seq<seq<bool>>)
    requires IsBatchRun(pval, batch, batchsum, gammai, w0, alpha, alphai, R)
    ensures forall b {:trigger R[b]} :: 0 <= b < |R| ==>
              |R[b]| == batch[b] && BatchStarRow(pval, gammai, batchsum, w0, alpha, R[..b], alphai[b], R[b])
    decreases |R|
  {
    if |R| > 0 {
      var n := |R| - 1;
      BatchRunRows(pval, batch, batchsum, gammai, w0, alpha, alphai[..n], R[..n]);
      forall b | 0 <= b < |R|
        ensures |R[b]| == batch[b] && BatchStarRow(pval, gammai, batchsum, w0, alpha, R[..b], alphai[b], R[b])
      {
        if b < n {
          assert alphai[..n][b] == alphai[b] && R[..n][b] == R[b] && R[..n][..b] == R[..b];
        }
      }
    }
  }

  /**
   * lordstar_batch_faster. Row b of alphai and R holds batch b; each row's
   * thresholds depend only on the rows before it. ok is false, with the rows
   * computed so far returned, when a cell of the next batch would read out of
   * range (BatchCellDefined: more rejections so far than batches so far).
   */
  method BatchFaster(pval: seq<real>, batch: seq<int>, batchsum: seq<int>, gammai: seq<real>,
                     w0: real, alpha: real)
    returns (alphai: seq<seq<real>>, R: seq<seq<bool>>, ok: bool)
    requires BatchLayout(batch, batchsum, |pval|) && |gammai| >= |pval|
    ensures |alphai| == |R| <= |batch|
    ensures forall b {:trigger R[b]} :: 0 <= b < |R| ==>
              |R[b]| == batch[b] && BatchStarRow(pval, gammai, batchsum, w0, alpha, R[..b], alphai[b], R[b])
    ensures ok ==> |R| == |batch|
    ensures !ok ==> 1 <= |R| < |batch| &&
                    exists x :: 0 <= x < batch[|R|] && BatchCellAlpha(gammai, batchsum, w0, alpha, R, x).None?
  {
    var B := |batch|;
    var arow, rrow := BatchFirstRow(pval, batch, batchsum, gammai, w0, alpha);
    alphai := [arow];
    R := [rrow];
    assert alphai[..0] == [] && R[..0] == [];
    var k := 1;
    while k < B
      invariant 1 <= k <= B && |alphai| == k && |R| == k
      invariant IsBatchRun(pval, batch, batchsum, gammai, w0, alpha, alphai, R)
    {
      var rowOk;
      arow, rrow, rowOk := BatchLaterRow(pval, batch, batchsum, gammai, w0, alpha, R);
      if !rowOk {
        BatchRunRows(pval, batch, batchsum, gammai, w0, alpha, alphai, R);
        return alphai, R, false;
      }
      assert (alphai + [arow])[..k] == alphai && (R + [rrow])[..k] == R;
      alphai := alphai + [arow];
      R := R + [rrow];
      k := k + 1;
    }
    BatchRunRows(pval, batch, batchsum, gammai, w0, alpha, alphai, R);
    ok := true;
  }

  /** Batch: the first batch gets the level gammai[i] * w0. */
  lemma BatchFirst(pval: seq<real>, gammai: seq<real>, batchsum: seq<int>, w0: real, alpha: real,
                   arow: seq<real>, rrow: seq<bool>, x: int)
    requires BatchStarRow(pval, gammai, batchsum, w0, alpha, [], arow, rrow) && 0 <= x < |arow|
    ensures arow[x] == gammai[x] * w0 && rrow[x] == (pval[x] <= gammai[x] * w0)
  {
  }
}
