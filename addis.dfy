/*
 * ADDIS (addis_sync_faster, addis_async_faster): adaptive discarding. A
 * p-value above tau is discarded: it neither spends nor earns wealth, so the
 * gamma sequence is indexed by the number of selected p-values (pval <= tau)
 * rather than by the step; among the selected ones, the candidates
 * (pval <= tau*lambda) are not counted either. The threshold is capped at
 * tau*lambda.
 *
 * The parameter lam is the source's lambda.
 *
 * The source reads gammai at indices it computes from these counts without a
 * bounds check. The model checks each such read: a read outside gammai makes
 * the step's threshold None and the run stop with ok == false.
 */
module Addis {
  import opened Common
  import opened Lord
  import Saffron

  /** tau * lambda: the candidate level, which is also the cap of every threshold after the first. */
  function CandLevel(tau: real, lam: real): real
  {
    tau * lam
  }

  /** tau * (1 - lambda) * alpha: the rate the ADDIS rule pays per rejection. */
  function AddisRate(tau: real, lam: real, alpha: real): real
  {
    tau * (1.0 - lam) * alpha
  }

  // ---------------------------------------------------------------------
  // Reads of gammai at computed indices.

  /** Every index of idx lies inside gammai. */
  predicate InGamma(gammai: seq<real>, idx: seq<int>)
  {
    forall m :: 0 <= m < |idx| ==> 0 <= idx[m] < |gammai|
  }

  /** gammai read at each index of idx. */
  function Reads(gammai: seq<real>, idx: seq<int>): (t: seq<real>)
    requires InGamma(gammai, idx)
    ensures |t| == |idx|
  {
    seq(|idx|, m requires 0 <= m < |idx| => gammai[idx[m]])
  }

  /** A prefix of in-range indices is in range, and its reads are the prefix of the reads. */
  lemma ReadsPrefix(gammai: seq<real>, idx: seq<int>, n: int)
    requires InGamma(gammai, idx) && 0 <= n <= |idx|
    ensures InGamma(gammai, idx[..n]) && Reads(gammai, idx)[..n] == Reads(gammai, idx[..n])
  {
  }

  /** One more in-range index adds its read to the running sum. */
  lemma ReadsSnoc(gammai: seq<real>, idx: seq<int>, j: int)
    requires 0 <= j < |idx| && InGamma(gammai, idx[..j]) && 0 <= idx[j] < |gammai|
    ensures InGamma(gammai, idx[..j + 1])
    ensures Sum(Reads(gammai, idx[..j + 1])) == Sum(Reads(gammai, idx[..j])) + gammai[idx[j]]
  {
    var t := Reads(gammai, idx[..j + 1]);
    assert t[..j] == Reads(gammai, idx[..j]);
  }

  /** An index of idx[..n] outside gammai is an index of idx outside gammai. */
  lemma OutOfGamma(gammai: seq<real>, idx: seq<int>, n: int, j: int)
    requires 0 <= j < n <= |idx| && !(0 <= idx[j] < |gammai|)
    ensures !InGamma(gammai, idx[..n]) && !InGamma(gammai, idx)
  {
    assert idx[..n][j] == idx[j];
  }

  // ---------------------------------------------------------------------
  // The sync rule as a function of the decision history.

  /** S[i-1] - candsum at step i: selected p-values among the first i minus the candidates among them. */
  function SyncBase(pval: seq<real>, tau: real, lam: real, i: int): int
    requires 0 <= i <= |pval|
  {
    CountLe(pval, 0, i, tau) - CountLe(pval, 0, i, CandLevel(tau, lam))
  }

  /**
   * S[i-1] - kappaistar - Cjplus for the rejection t at step i: the selected
   * p-values in (t, i) minus the candidates in (t, i).
   */
  function SyncIndex(pval: seq<real>, tau: real, lam: real, i: int, t: int): int
    requires 0 <= t < i <= |pval|
  {
    CountLe(pval, 0, i, tau) - CountLe(pval, 0, t + 1, tau) - CountLe(pval, t + 1, i, CandLevel(tau, lam))
  }

  /** The gammai index of every rejection in rs, at step |rs|. */
  function SyncIndices(pval: seq<real>, tau: real, lam: real, rs: seq<bool>): (idx: seq<int>)
    requires |rs| <= |pval|
    ensures |idx| == CountTrue(rs)
  {
    var ts := Rejected(rs);
    seq(|ts|, j requires 0 <= j < |ts| => SyncIndex(pval, tau, lam, |rs|, ts[j]))
  }

  /** Every gammai read of the sync step |rs| is inside gammai. */
  predicate SyncInRange(pval: seq<real>, gammai: seq<real>, tau: real, lam: real, rs: seq<bool>)
    requires |rs| <= |pval|
  {
    0 <= SyncBase(pval, tau, lam, |rs|) < |gammai| && InGamma(gammai, SyncIndices(pval, tau, lam, rs))
  }

  /**
   * alphai[i] of addis_sync_faster at step i = |rs| >= 1: the LORD rule with
   * rate tau*(1-lambda)*alpha on the gammai reads above, capped at tau*lambda;
   * None when a read falls outside gammai.
   */
  function SyncAlpha(pval: seq<real>, gammai: seq<real>, lam: real, alpha: real, tau: real, w0: real,
                     rs: seq<bool>): Option<real>
    requires |rs| <= |pval|
  {
    if !SyncInRange(pval, gammai, tau, lam, rs) then None
    else
      Some(Min(CandLevel(tau, lam),
               LordRule(gammai[SyncBase(pval, tau, lam, |rs|)], w0, AddisRate(tau, lam, alpha),
                        Reads(gammai, SyncIndices(pval, tau, lam, rs)))))
  }

  // ---------------------------------------------------------------------
  // Selection and the sapply loop, shared by both variants.

  /** selected = (pval <= tau), entry by entry. */
  predicate SelectionOf(pval: seq<real>, tau: real, selected: seq<bool>)
  {
    |selected| == |pval| && forall k :: 0 <= k < |pval| ==> selected[k] == (pval[k] <= tau)
  }

  /** S = cumsum(selected): S[k] counts the selected p-values among pval[0..k]. */
  predicate CumsumOf(pval: seq<real>, tau: real, S: seq<int>)
  {
    |S| == |pval| && forall k :: 0 <= k < |pval| ==> S[k] == CountLe(pval, 0, k + 1, tau)
  }

  /** selected = (pval <= tau) and S = cumsum(selected), as the sync variant sets them up. */
  method Selection(pval: seq<real>, tau: real) returns (selected: seq<bool>, S: seq<int>)
    ensures SelectionOf(pval, tau, selected) && CumsumOf(pval, tau, S)
  {
    selected := [];
    S := [];
    var run := 0;
    var k := 0;
    while k < |pval|
      invariant 0 <= k <= |pval| && |selected| == k && |S| == k
      invariant forall m :: 0 <= m < k ==> selected[m] == (pval[m] <= tau) && S[m] == CountLe(pval, 0, m + 1, tau)
      invariant run == CountLe(pval, 0, k, tau)
    {
      CountLeSnoc(pval, 0, k, tau);
      selected := selected + [pval[k] <= tau];
      run := run + B2I(selected[k]);
      S := S + [run];
      k := k + 1;
    }
  }

  /**
   * The sapply loop: one pass over k = 0..max(kappai) with a running count
   * of selected p-values, storing it as kappaistar[j] when k reaches kappai[j].
   */
  method KappaStar(pval: seq<real>, tau: real, selected: seq<bool>, kappai: seq<int>) returns (ks: seq<int>)
    requires SelectionOf(pval, tau, selected)
    requires |kappai| >= 1 && Increasing(kappai) && 0 <= kappai[0] && kappai[|kappai| - 1] < |pval|
    ensures |ks| == |kappai|
    ensures forall j :: 0 <= j < |kappai| ==> ks[j] == CountLe(pval, 0, kappai[j] + 1, tau)
  {
    var K := |kappai|;
    ks := seq(K, _ => 0);
    var mysum := 0;
    var index := 0;
    var bound := kappai[K - 1];
    var k := 0;
    while k <= bound
      invariant 0 <= k <= bound + 1 && 0 <= index <= K && |ks| == K
      invariant mysum == CountLe(pval, 0, k, tau)
      invariant forall j :: 0 <= j < index ==> ks[j] == CountLe(pval, 0, kappai[j] + 1, tau)
      invariant forall j :: index <= j < K ==> kappai[j] >= k
      invariant k <= bound ==> index < K
    {
      CountLeSnoc(pval, 0, k, tau);
      mysum := mysum + B2I(selected[k]);
      if kappai[index] == k {
        ks := ks[index := mysum];
        index := index + 1;
      }
      k := k + 1;
    }
  }

  /** The K == 1 count: selected[j] summed over j = 0..t. */
  method SelectedThrough(pval: seq<real>, tau: real, selected: seq<bool>, t: int) returns (c: int)
    requires SelectionOf(pval, tau, selected) && 0 <= t < |pval|
    ensures c == CountLe(pval, 0, t + 1, tau)
  {
    c := 0;
    var j := 0;
    while j <= t
      invariant 0 <= j <= t + 1 && c == CountLe(pval, 0, j, tau)
    {
      CountLeSnoc(pval, 0, j, tau);
      c := c + B2I(selected[j]);
      j := j + 1;
    }
  }

  // ---------------------------------------------------------------------
  // The sync K > 1 branch on a rejection list.

  /**
   * The first loop of the K > 1 branch: for j < K-1, Cjplus[j] += cand[i-1]
   * and Cjplussum += gammai[S[i-1] - kappaistar[j] - Cjplus[j]]. idx[m] is
   * the index the rejection kappai[m] reads at step i.
   */
  method SyncIncrement(pval: seq<real>, gammai: seq<real>, cl: real, cand: seq<int>, Cjplus: seq<int>,
                       kappai: seq<int>, ks: seq<int>, Sl: int, K: int, i: int, ghost idx: seq<int>)
    returns (cj: seq<int>, ok: bool, s: real)
    requires 1 <= i < |cand| == |pval|
    requires cand[i - 1] == B2I(pval[i - 1] <= cl)
    requires 2 <= K == |kappai| == |ks| == |idx| <= |Cjplus|
    requires forall m :: 0 <= m < K - 1 ==>
               0 <= kappai[m] && kappai[m] + 1 <= i - 1 && Cjplus[m] == CountLe(pval, kappai[m] + 1, i - 1, cl)
    requires forall m :: 0 <= m < K - 1 ==> idx[m] == Sl - ks[m] - CountLe(pval, kappai[m] + 1, i, cl)
    ensures |cj| == |Cjplus|
    ensures ok <==> InGamma(gammai, idx[..K - 1])
    ensures !ok ==> !InGamma(gammai, idx)
    ensures ok ==> forall m :: 0 <= m < K - 1 ==> cj[m] == CountLe(pval, kappai[m] + 1, i, cl)
    ensures ok ==> s == Sum(Reads(gammai, idx[..K - 1]))
  {
    cj := Cjplus;
    s := 0.0;
    var j := 0;
    while j < K - 1
      invariant 0 <= j <= K - 1 && |cj| == |Cjplus|
      invariant forall m :: 0 <= m < j ==> cj[m] == CountLe(pval, kappai[m] + 1, i, cl)
      invariant forall m :: j <= m < |cj| ==> cj[m] == Cjplus[m]
      invariant InGamma(gammai, idx[..j]) && s == Sum(Reads(gammai, idx[..j]))
    {
      CountLeSnoc(pval, kappai[j] + 1, i - 1, cl);
      cj := cj[j := cj[j] + cand[i - 1]];
      var ix := Sl - ks[j] - cj[j];
      if !(0 <= ix < |gammai|) {
        OutOfGamma(gammai, idx, K - 1, j);
        return cj, false, s;
      }
      ReadsSnoc(gammai, idx, j);
      s := s + gammai[ix];
      j := j + 1;
    }
    ok := true;
  }

  /**
   * The rest of the K > 1 branch: Cjplus[K-1] recounted over
   * kappai[K-1]+1 .. max(i-1, max(kappai)+1), and Cjplussum moved from the
   * first K-1 terms to the last K-1.
   */
  method SyncFinishMany(pval: seq<real>, gammai: seq<real>, cl: real, cand: seq<int>, cj: seq<int>, s: real,
                        kappai: seq<int>, ks: seq<int>, Sl: int, K: int, i: int, ghost idx: seq<int>)
    returns (Cjplus': seq<int>, ok: bool, first: real, rest: real)
    requires 1 <= i < |cand| == |pval|
    requires Saffron.CandWritten(pval, cl, cand, i)
    requires 2 <= K == |kappai| == |ks| == |idx| <= |cj| && MaxOf(kappai) == kappai[K - 1]
    requires 0 <= kappai[0] < i && 0 <= kappai[K - 1] < i && cj[0] == CountLe(pval, kappai[0] + 1, i, cl)
    requires idx[0] == Sl - ks[0] - cj[0]
    requires idx[K - 1] == Sl - ks[K - 1] - CountLe(pval, kappai[K - 1] + 1, i, cl)
    requires InGamma(gammai, idx[..K - 1]) && s == Sum(Reads(gammai, idx[..K - 1]))
    ensures Cjplus' == cj[K - 1 := CountLe(pval, kappai[K - 1] + 1, i, cl)]
    ensures ok <==> InGamma(gammai, idx)
    ensures ok ==> first == Reads(gammai, idx)[0] && rest == Sum(Reads(gammai, idx)[1..])
  {
    var low := kappai[K - 1] + 1;
    var high := MaxInt(i - 1, MaxOf(kappai) + 1);
    var c := Saffron.Recount(cand, low, high);
    Saffron.RecountIsCount(pval, cl, cand, i, low);
    Cjplus' := cj[K - 1 := c];
    var lastIx := Sl - ks[K - 1] - Cjplus'[K - 1];
    if !(0 <= lastIx < |gammai|) {
      return Cjplus', false, 0.0, 0.0;
    }
    assert idx[..K - 1][0] == idx[0];
    assert InGamma(gammai, idx) by {
      assert forall m :: 0 <= m < K - 1 ==> idx[..K - 1][m] == idx[m];
    }
    ReadsPrefix(gammai, idx, K - 1);
    first := gammai[Sl - ks[0] - Cjplus'[0]];
    rest := s + (gammai[lastIx] - first);
    Saffron.SumSwapFirstForLast(Reads(gammai, idx), s, gammai[lastIx], first);
    ok := true;
  }

  /**
   * The K > 1 branch on the rejection list kappai: the new Cjplus and
   * alphaitilde = w0*gammai[S[i-1] - candsum] + (rate - w0)*first + rate*Cjplussum.
   */
  method SyncManyList(pval: seq<real>, gammai: seq<real>, cl: real, rate: real, w0: real,
                      cand: seq<int>, candsum: int, Cjplus: seq<int>, kappai: seq<int>, ks: seq<int>,
                      Sl: int, K: int, i: int, ghost idx: seq<int>)
    returns (Cjplus': seq<int>, ok: bool, tilde: real)
    requires 1 <= i < |cand| == |pval|
    requires Saffron.CandWritten(pval, cl, cand, i)
    requires 2 <= K == |kappai| == |ks| == |idx| <= |Cjplus| && MaxOf(kappai) == kappai[K - 1]
    requires forall m :: 0 <= m < K - 1 ==>
               0 <= kappai[m] && kappai[m] + 1 <= i - 1 && Cjplus[m] == CountLe(pval, kappai[m] + 1, i - 1, cl)
    requires 0 <= kappai[K - 1] < i
    requires forall m :: 0 <= m < K ==> idx[m] == Sl - ks[m] - CountLe(pval, kappai[m] + 1, i, cl)
    ensures |Cjplus'| == |Cjplus|
    ensures ok <==> InGamma(gammai, idx) && 0 <= Sl - candsum < |gammai|
    ensures ok ==> forall m :: 0 <= m < K ==> Cjplus'[m] == CountLe(pval, kappai[m] + 1, i, cl)
    ensures ok ==> tilde == LordRule(gammai[Sl - candsum], w0, rate, Reads(gammai, idx))
  {
    var cj, ok1, s := SyncIncrement(pval, gammai, cl, cand, Cjplus, kappai, ks, Sl, K, i, idx);
    if !ok1 {
      return cj, false, 0.0;
    }
    var first, rest;
    Cjplus', ok, first, rest := SyncFinishMany(pval, gammai, cl, cand, cj, s, kappai, ks, Sl, K, i, idx);
    if !ok {
      return Cjplus', false, 0.0;
    }
    var baseIx := Sl - candsum;
    if !(0 <= baseIx < |gammai|) {
      return Cjplus', false, 0.0;
    }
    LordRuleCases(gammai[baseIx], w0, rate, Reads(gammai, idx));
    tilde := LordHigh(gammai[baseIx], w0, rate, first, rest);
  }

  // ---------------------------------------------------------------------
  // The sync step on the decision history.

  /** The indices of the rejection list kappai = Rejected(R) at step i, entry by entry. */
  lemma SyncIndicesOfList(pval: seq<real>, tau: real, lam: real, S: seq<int>, ks: seq<int>,
                          R: seq<bool>, kappai: seq<int>)
    requires 1 <= |R| < |pval| && kappai == Rejected(R) && CumsumOf(pval, tau, S)
    requires |ks| == |kappai| && forall j :: 0 <= j < |kappai| ==> ks[j] == CountLe(pval, 0, kappai[j] + 1, tau)
    ensures forall m :: 0 <= m < |kappai| ==>
              SyncIndices(pval, tau, lam, R)[m] ==
              S[|R| - 1] - ks[m] - CountLe(pval, kappai[m] + 1, |R|, CandLevel(tau, lam))
  {
  }

  /** The uncapped rule on the reads of R, capped at tau*lambda, is the sync threshold. */
  lemma CappedIsSync(pval: seq<real>, gammai: seq<real>, lam: real, alpha: real, tau: real, w0: real,
                     R: seq<bool>, b: int, idx: seq<int>, ok: bool, tilde: real)
    requires |R| <= |pval| && b == SyncBase(pval, tau, lam, |R|) && idx == SyncIndices(pval, tau, lam, R)
    requires ok <==> 0 <= b < |gammai| && InGamma(gammai, idx)
    requires ok ==> tilde == LordRule(gammai[b], w0, AddisRate(tau, lam, alpha), Reads(gammai, idx))
    ensures ok <==> SyncAlpha(pval, gammai, lam, alpha, tau, w0, R).Some?
    ensures ok ==> SyncAlpha(pval, gammai, lam, alpha, tau, w0, R) == Some(Min(CandLevel(tau, lam), tilde))
  {
  }

  /** kappaistar of every rejection, and what the earlier steps left in Cjplus, for the K > 1 branch. */
  method SyncManyPrep(pval: seq<real>, tau: real, lam: real, selected: seq<bool>, S: seq<int>,
                      Cjplus: seq<int>, kappai: seq<int>, K: int, R: seq<bool>)
    returns (ks: seq<int>)
    requires 1 <= |R| < |pval| && SelectionOf(pval, tau, selected) && CumsumOf(pval, tau, S)
    requires K == CountTrue(R) >= 2 && kappai == Rejected(R)
    requires Saffron.CjplusCounts(pval, CandLevel(tau, lam), Cjplus, Rejected(R[..|R| - 1]), |R| - 1)
    ensures |ks| == K == |kappai| && MaxOf(kappai) == kappai[K - 1] && 0 <= kappai[K - 1] < |R|
    ensures forall m :: 0 <= m < K ==> 0 <= kappai[m]
    ensures forall m :: 0 <= m < K - 1 ==>
              kappai[m] + 1 <= |R| - 1 && Cjplus[m] == CountLe(pval, kappai[m] + 1, |R| - 1, CandLevel(tau, lam))
    ensures forall m :: 0 <= m < K ==>
              SyncIndices(pval, tau, lam, R)[m] ==
              S[|R| - 1] - ks[m] - CountLe(pval, kappai[m] + 1, |R|, CandLevel(tau, lam))
  {
    Saffron.LastRejection(R, K);
    Saffron.OlderCounts(pval, CandLevel(tau, lam), Cjplus, R, |R|, kappai);
    RejectedIncreasing(R);
    ks := KappaStar(pval, tau, selected, kappai);
    SyncIndicesOfList(pval, tau, lam, S, ks, R, kappai);
  }

  /** The K > 1 branch on the decision history R, capped at tau*lambda. */
  method SyncMany(pval: seq<real>, gammai: seq<real>, lam: real, alpha: real, tau: real, w0: real,
                  selected: seq<bool>, S: seq<int>, cand: seq<int>, candsum: int, Cjplus: seq<int>,
                  kappai: seq<int>, K: int, R: seq<bool>)
    returns (Cjplus': seq<int>, ok: bool, a: real)
    requires 1 <= |R| < |pval| == |cand| == |Cjplus|
    requires SelectionOf(pval, tau, selected) && CumsumOf(pval, tau, S)
    requires Saffron.CandWritten(pval, CandLevel(tau, lam), cand, |R|)
    requires candsum == CountLe(pval, 0, |R|, CandLevel(tau, lam))
    requires K == CountTrue(R) >= 2 && kappai == Rejected(R)
    requires Saffron.CjplusCounts(pval, CandLevel(tau, lam), Cjplus, Rejected(R[..|R| - 1]), |R| - 1)
    ensures |Cjplus'| == |Cjplus|
    ensures ok <==> SyncAlpha(pval, gammai, lam, alpha, tau, w0, R).Some?
    ensures ok ==> Saffron.CjplusCounts(pval, CandLevel(tau, lam), Cjplus', Rejected(R), |R|)
    ensures ok ==> SyncAlpha(pval, gammai, lam, alpha, tau, w0, R) == Some(a)
  {
    var ks := SyncManyPrep(pval, tau, lam, selected, S, Cjplus, kappai, K, R);
    Cjplus', ok, a := SyncManyFinish(pval, gammai, lam, alpha, tau, w0, S, cand, candsum, Cjplus, kappai, ks,
                                     K, R);
  }

  /** The K > 1 branch once kappaistar is known: the reads, the capped threshold and the recounted Cjplus. */
  method SyncManyFinish(pval: seq<real>, gammai: seq<real>, lam: real, alpha: real, tau: real, w0: real,
                        S: seq<int>, cand: seq<int>, candsum: int, Cjplus: seq<int>, kappai: seq<int>,
                        ks: seq<int>, K: int, R: seq<bool>)
    returns (Cjplus': seq<int>, ok: bool, a: real)
    requires 1 <= |R| < |pval| == |cand| == |Cjplus| && CumsumOf(pval, tau, S)
    requires Saffron.CandWritten(pval, CandLevel(tau, lam), cand, |R|)
    requires candsum == CountLe(pval, 0, |R|, CandLevel(tau, lam)) && kappai == Rejected(R)
    requires 2 <= |ks| == K == |kappai| && MaxOf(kappai) == kappai[K - 1] && 0 <= kappai[K - 1] < |R|
    requires forall m :: 0 <= m < K ==> 0 <= kappai[m]
    requires forall m :: 0 <= m < K - 1 ==>
               kappai[m] + 1 <= |R| - 1 && Cjplus[m] == CountLe(pval, kappai[m] + 1, |R| - 1, CandLevel(tau, lam))
    requires forall m :: 0 <= m < K ==>
               SyncIndices(pval, tau, lam, R)[m] ==
               S[|R| - 1] - ks[m] - CountLe(pval, kappai[m] + 1, |R|, CandLevel(tau, lam))
    ensures |Cjplus'| == |Cjplus|
    ensures ok <==> SyncAlpha(pval, gammai, lam, alpha, tau, w0, R).Some?
    ensures ok ==> Saffron.CjplusCounts(pval, CandLevel(tau, lam), Cjplus', Rejected(R), |R|)
    ensures ok ==> SyncAlpha(pval, gammai, lam, alpha, tau, w0, R) == Some(a)
  {
    var i := |R|;
    var cl := CandLevel(tau, lam);
    ghost var idx := SyncIndices(pval, tau, lam, R);
    var tilde;
    Cjplus', ok, tilde := SyncManyList(pval, gammai, cl, AddisRate(tau, lam, alpha), w0, cand, candsum,
                                       Cjplus, kappai, ks, S[i - 1], K, i, idx);
    assert SyncBase(pval, tau, lam, i) == S[i - 1] - candsum;
    a := SyncManyClose(pval, gammai, lam, alpha, tau, w0, R, S[i - 1] - candsum, idx, cl, kappai, K, i,
                       Cjplus', ok, tilde);
  }

  /** The capped threshold of the K > 1 branch, and Cjplus' as the counts after every rejection. */
  method SyncManyClose(pval: seq<real>, gammai: seq<real>, lam: real, alpha: real, tau: real, w0: real,
                       R: seq<bool>, b: int, ghost idx: seq<int>, cl: real, kappai: seq<int>, K: int, i: int,
                       Cjplus': seq<int>, ok: bool, tilde: real)
    returns (a: real)
    requires i == |R| <= |pval| && b == SyncBase(pval, tau, lam, i) && idx == SyncIndices(pval, tau, lam, R)
    requires cl == CandLevel(tau, lam) && kappai == Rejected(R) && K == |kappai| <= |Cjplus'|
    requires forall m :: 0 <= m < K ==> 0 <= kappai[m]
    requires ok <==> InGamma(gammai, idx) && 0 <= b < |gammai|
    requires ok ==> forall m :: 0 <= m < K ==> Cjplus'[m] == CountLe(pval, kappai[m] + 1, i, cl)
    requires ok ==> tilde == LordRule(gammai[b], w0, AddisRate(tau, lam, alpha), Reads(gammai, idx))
    ensures ok <==> SyncAlpha(pval, gammai, lam, alpha, tau, w0, R).Some?
    ensures ok ==> Saffron.CjplusCounts(pval, CandLevel(tau, lam), Cjplus', Rejected(R), |R|)
    ensures ok ==> SyncAlpha(pval, gammai, lam, alpha, tau, w0, R) == Some(a)
  {
    CappedIsSync(pval, gammai, lam, alpha, tau, w0, R, b, idx, ok, tilde);
    a := 0.0;
    if ok {
      Saffron.CountsOfList(pval, cl, Cjplus', kappai, i);
      a := Min(cl, tilde);
    }
  }

  /** The K == 1 branch on the decision history R: Cjplus[0] recounted, then the capped threshold. */
  method SyncOne(pval: seq<real>, gammai: seq<real>, lam: real, alpha: real, tau: real, w0: real,
                 selected: seq<bool>, S: seq<int>, cand: seq<int>, candsum: int, Cjplus: seq<int>,
                 kappai: seq<int>, R: seq<bool>)
    returns (Cjplus': seq<int>, ok: bool, a: real)
    requires 1 <= |R| < |pval| == |cand| == |Cjplus|
    requires SelectionOf(pval, tau, selected) && CumsumOf(pval, tau, S)
    requires Saffron.CandWritten(pval, CandLevel(tau, lam), cand, |R|)
    requires candsum == CountLe(pval, 0, |R|, CandLevel(tau, lam))
    requires CountTrue(R) == 1 && kappai == Rejected(R)
    ensures |Cjplus'| == |Cjplus|
    ensures ok <==> SyncAlpha(pval, gammai, lam, alpha, tau, w0, R).Some?
    ensures ok ==> Saffron.CjplusCounts(pval, CandLevel(tau, lam), Cjplus', Rejected(R), |R|)
    ensures ok ==> SyncAlpha(pval, gammai, lam, alpha, tau, w0, R) == Some(a)
  {
    var i := |R|;
    var cl := CandLevel(tau, lam);
    ghost var idx := SyncIndices(pval, tau, lam, R);
    var kappaistar := SelectedThrough(pval, tau, selected, kappai[0]);
    var low := kappai[0] + 1;
    var c := Saffron.Recount(cand, low, MaxInt(i - 1, low));
    Saffron.RecountIsCount(pval, cl, cand, i, low);
    Cjplus' := Cjplus[0 := c];
    var baseIx := S[i - 1] - candsum;
    var termIx := S[i - 1] - kappaistar - Cjplus'[0];
    assert |idx| == 1 && idx[0] == termIx && SyncBase(pval, tau, lam, i) == baseIx;
    if !(0 <= baseIx < |gammai| && 0 <= termIx < |gammai|) {
      return Cjplus', false, 0.0;
    }
    var rate := AddisRate(tau, lam, alpha);
    assert InGamma(gammai, idx) && Reads(gammai, idx) == [gammai[termIx]];
    LordRuleCases(gammai[baseIx], w0, rate, Reads(gammai, idx));
    var tilde := LordLow(gammai[baseIx], w0, rate, gammai[termIx]);
    CappedIsSync(pval, gammai, lam, alpha, tau, w0, R, baseIx, idx, true, tilde);
    ok := true;
    a := Min(cl, tilde);
  }

  /** The K == 0 branch on the decision history R: w0*gammai[S[i-1] - candsum], capped. */
  method SyncNone(pval: seq<real>, gammai: seq<real>, lam: real, alpha: real, tau: real, w0: real,
                  S: seq<int>, candsum: int, Cjplus: seq<int>, R: seq<bool>)
    returns (Cjplus': seq<int>, ok: bool, a: real)
    requires 1 <= |R| < |pval| && CumsumOf(pval, tau, S)
    requires candsum == CountLe(pval, 0, |R|, CandLevel(tau, lam)) && CountTrue(R) == 0
    ensures Cjplus' == Cjplus
    ensures ok <==> SyncAlpha(pval, gammai, lam, alpha, tau, w0, R).Some?
    ensures ok ==> Saffron.CjplusCounts(pval, CandLevel(tau, lam), Cjplus', Rejected(R), |R|)
    ensures ok ==> SyncAlpha(pval, gammai, lam, alpha, tau, w0, R) == Some(a)
  {
    Cjplus' := Cjplus;
    var baseIx := S[|R| - 1] - candsum;
    assert SyncIndices(pval, tau, lam, R) == [] && SyncBase(pval, tau, lam, |R|) == baseIx;
    if !(0 <= baseIx < |gammai|) {
      return Cjplus', false, 0.0;
    }
    LordRuleCases(gammai[baseIx], w0, AddisRate(tau, lam, alpha), []);
    CappedIsSync(pval, gammai, lam, alpha, tau, w0, R, baseIx, [], true, w0 * gammai[baseIx]);
    ok := true;
    a := Min(CandLevel(tau, lam), w0 * gammai[baseIx]);
  }

  /** Step i >= 1 of addis_sync_faster, up to alphai[i]; ok == false when a gammai read is out of range. */
  method SyncStep(pval: seq<real>, gammai: seq<real>, lam: real, alpha: real, tau: real, w0: real,
                  selected: seq<bool>, S: seq<int>, cand: seq<int>, candsum: int, Cjplus: seq<int>,
                  kappai: seq<int>, K: int, R: seq<bool>)
    returns (cand': seq<int>, candsum': int, Cjplus': seq<int>, kappai': seq<int>, ok: bool, a: real)
    requires 1 <= |R| < |pval| == |cand| == |Cjplus|
    requires SelectionOf(pval, tau, selected) && CumsumOf(pval, tau, S)
    requires Saffron.CandWritten(pval, CandLevel(tau, lam), cand, |R| - 1)
    requires candsum == CountLe(pval, 0, |R| - 1, CandLevel(tau, lam))
    requires K == CountTrue(R) && kappai == TauOf(Rejected(R[..|R| - 1]))
    requires Saffron.CjplusCounts(pval, CandLevel(tau, lam), Cjplus, Rejected(R[..|R| - 1]), |R| - 1)
    ensures |cand'| == |cand| && |Cjplus'| == |Cjplus|
    ensures Saffron.CandWritten(pval, CandLevel(tau, lam), cand', |R|)
    ensures candsum' == CountLe(pval, 0, |R|, CandLevel(tau, lam))
    ensures kappai' == TauOf(Rejected(R))
    ensures ok <==> SyncAlpha(pval, gammai, lam, alpha, tau, w0, R).Some?
    ensures ok ==> Saffron.CjplusCounts(pval, CandLevel(tau, lam), Cjplus', Rejected(R), |R|)
    ensures ok ==> SyncAlpha(pval, gammai, lam, alpha, tau, w0, R) == Some(a)
  {
    var i := |R|;
    cand', candsum' := Saffron.MarkCandidate(pval, CandLevel(tau, lam), cand, candsum, i);
    assert R == R[..i - 1] + [R[i - 1]];
    kappai' := LordUpdateTau(kappai, K, i, R[i - 1], R[..i - 1]);
    if K > 1 {
      Cjplus', ok, a := SyncMany(pval, gammai, lam, alpha, tau, w0, selected, S, cand', candsum', Cjplus,
                                 kappai', K, R);
    } else if K == 1 {
      Cjplus', ok, a := SyncOne(pval, gammai, lam, alpha, tau, w0, selected, S, cand', candsum', Cjplus,
                                kappai', R);
    } else {
      Cjplus', ok, a := SyncNone(pval, gammai, lam, alpha, tau, w0, S, candsum', Cjplus, R);
    }
  }

  /** The sync rule as a function of the history alone; None beyond pval. */
  function SyncRule(pval: seq<real>, gammai: seq<real>, lam: real, alpha: real, tau: real,
                    w0: real): (f: seq<bool> -> Option<real>)
    ensures forall rs :: |rs| <= |pval| ==> f(rs) == SyncAlpha(pval, gammai, lam, alpha, tau, w0, rs)
  {
    rs => if |rs| <= |pval| then SyncAlpha(pval, gammai, lam, alpha, tau, w0, rs) else None
  }

  /** alphai and R of a sync run: every alphai[k], k >= 1, is SyncAlpha on the first k decisions. */
  ghost predicate IsSyncRun(pval: seq<real>, gammai: seq<real>, lam: real, alpha: real, tau: real, w0: real,
                            alphai: seq<real>, R: seq<bool>)
  {
    |R| <= |pval| && IsRunOf(SyncRule(pval, gammai, lam, alpha, tau, w0), alphai, R)
  }

  /** Every threshold of a sync run after the first, one index at a time. */
  lemma SyncRunRows(pval: seq<real>, gammai: seq<real>, lam: real, alpha: real, tau: real,
                    w0: real, alphai: seq<real>, R: seq<bool>)
    requires IsSyncRun(pval, gammai, lam, alpha, tau, w0, alphai, R)
    ensures forall k {:trigger alphai[k]} :: 1 <= k < |R| ==>
              SyncAlpha(pval, gammai, lam, alpha, tau, w0, R[..k]) == Some(alphai[k]) &&
              alphai[k] <= CandLevel(tau, lam)
  {
    var f := SyncRule(pval, gammai, lam, alpha, tau, w0);
    RunOfRows(f, alphai, R);
    forall k | 1 <= k < |R|
      ensures SyncAlpha(pval, gammai, lam, alpha, tau, w0, R[..k]) == Some(alphai[k]) &&
              alphai[k] <= CandLevel(tau, lam)
    {
      assert f(R[..k]) == Some(alphai[k]);
    }
  }

  /** The bookkeeping of addis_sync_faster at the start of step |R|. */
  ghost predicate SyncState(pval: seq<real>, tau: real, lam: real, cand: seq<int>, candsum: int,
                            Cjplus: seq<int>, kappai: seq<int>, K: int, R: seq<bool>)
  {
    1 <= |R| <= |pval| == |cand| == |Cjplus| &&
    Saffron.CandWritten(pval, CandLevel(tau, lam), cand, |R| - 1) &&
    candsum == CountLe(pval, 0, |R| - 1, CandLevel(tau, lam)) &&
    K == CountTrue(R) && kappai == TauOf(Rejected(R[..|R| - 1])) &&
    Saffron.CjplusCounts(pval, CandLevel(tau, lam), Cjplus, Rejected(R[..|R| - 1]), |R| - 1)
  }

  /** The counters after step |R| are the bookkeeping at the start of the next step. */
  lemma SyncExtendState(pval: seq<real>, tau: real, lam: real, cand: seq<int>, candsum: int,
                        Cjplus: seq<int>, kappai: seq<int>, K: int, R: seq<bool>, b: bool)
    requires 1 <= |R| < |pval| == |cand| == |Cjplus| && K == CountTrue(R)
    requires Saffron.CandWritten(pval, CandLevel(tau, lam), cand, |R|)
    requires candsum == CountLe(pval, 0, |R|, CandLevel(tau, lam)) && kappai == TauOf(Rejected(R))
    requires Saffron.CjplusCounts(pval, CandLevel(tau, lam), Cjplus, Rejected(R), |R|)
    ensures SyncState(pval, tau, lam, cand, candsum, Cjplus, kappai, K + B2I(b), R + [b])
  {
    RejectedSnoc(R, b);
    assert (R + [b])[..|R|] == R;
  }

  /** A decision on the threshold SyncAlpha(R) extends the run and its decisions. */
  lemma SyncExtendRun(pval: seq<real>, gammai: seq<real>, lam: real, alpha: real, tau: real, w0: real,
                      alphai: seq<real>, R: seq<bool>, a: real, b: bool)
    requires 1 <= |R| < |pval| && IsSyncRun(pval, gammai, lam, alpha, tau, w0, alphai, R)
    requires Decided(pval, alphai, R)
    requires SyncAlpha(pval, gammai, lam, alpha, tau, w0, R) == Some(a) && b == (pval[|R|] <= a)
    ensures IsSyncRun(pval, gammai, lam, alpha, tau, w0, alphai + [a], R + [b])
    ensures Decided(pval, alphai + [a], R + [b])
  {
    DecisionsSnoc(pval, alphai, R, a, b);
    RunOfSnoc(SyncRule(pval, gammai, lam, alpha, tau, w0), alphai, R, a, b);
  }

  /** One iteration of the main loop: step |R|, its decision, and the counters for the next step. */
  method SyncAdvance(pval: seq<real>, gammai: seq<real>, lam: real, alpha: real, tau: real, w0: real,
                     selected: seq<bool>, S: seq<int>, cand: seq<int>, candsum: int, Cjplus: seq<int>,
                     kappai: seq<int>, K: int, alphai: seq<real>, R: seq<bool>)
    returns (cand': seq<int>, candsum': int, Cjplus': seq<int>, kappai': seq<int>, K': int,
             alphai': seq<real>, R': seq<bool>, ok: bool)
    requires SelectionOf(pval, tau, selected) && CumsumOf(pval, tau, S)
    requires SyncState(pval, tau, lam, cand, candsum, Cjplus, kappai, K, R) && |R| < |pval|
    requires IsSyncRun(pval, gammai, lam, alpha, tau, w0, alphai, R) && Decided(pval, alphai, R)
    ensures !ok ==> alphai' == alphai && R' == R && SyncAlpha(pval, gammai, lam, alpha, tau, w0, R).None?
    ensures ok ==> |R'| == |R| + 1 && |alphai'| == |R'| && alphai'[0] == alphai[0]
    ensures ok ==> SyncState(pval, tau, lam, cand', candsum', Cjplus', kappai', K', R')
    ensures ok ==> IsSyncRun(pval, gammai, lam, alpha, tau, w0, alphai', R') && Decided(pval, alphai', R')
  {
    var i := |R|;
    var a;
    cand', candsum', Cjplus', kappai', ok, a :=
      SyncStep(pval, gammai, lam, alpha, tau, w0, selected, S, cand, candsum, Cjplus, kappai, K, R);
    if !ok {
      return cand', candsum', Cjplus', kappai', K, alphai, R, false;
    }
    var b := pval[i] <= a;
    SyncExtendState(pval, tau, lam, cand', candsum', Cjplus', kappai', K, R, b);
    SyncExtendRun(pval, gammai, lam, alpha, tau, w0, alphai, R, a, b);
    alphai' := alphai + [a];
    R' := R + [b];
    K' := K + B2I(b);
  }

  /**
   * addis_sync_faster. alphai[0] = w0*gammai[0] is not capped; every later
   * alphai[k] is SyncAlpha on the first k decisions. The run stops with
   * ok == false at the first step whose gammai reads leave gammai.
   */
  method SyncFaster(pval: seq<real>, gammai: seq<real>, lam: real, alpha: real, tau: real, w0: real)
    returns (alphai: seq<real>, R: seq<bool>, ok: bool)
    requires |pval| >= 1 && |gammai| >= 1
    ensures 1 <= |alphai| == |R| <= |pval|
    ensures alphai[0] == w0 * gammai[0]
    ensures forall k {:trigger alphai[k]} :: 1 <= k < |R| ==>
              SyncAlpha(pval, gammai, lam, alpha, tau, w0, R[..k]) == Some(alphai[k]) &&
              alphai[k] <= CandLevel(tau, lam)
    ensures forall k {:trigger pval[k]} :: 0 <= k < |R| ==> R[k] == (pval[k] <= alphai[k])
    ensures ok <==> |R| == |pval|
    ensures !ok ==> SyncAlpha(pval, gammai, lam, alpha, tau, w0, R).None?
  {
    var N := |pval|;
    var cand := seq(N, _ => 0);
    var Cjplus := seq(N, _ => 0);
    var selected, S := Selection(pval, tau);
    alphai := [w0 * gammai[0]];
    R := [pval[0] <= alphai[0]];
    var K := B2I(R[0]);
    var candsum := 0;
    var kappai := [0];
    assert R[..0] == [];
    while |R| < N
      invariant 1 <= |R| <= N && SyncState(pval, tau, lam, cand, candsum, Cjplus, kappai, K, R)
      invariant IsSyncRun(pval, gammai, lam, alpha, tau, w0, alphai, R) && Decided(pval, alphai, R)
      invariant alphai[0] == w0 * gammai[0]
      decreases N - |R|
    {
      var stepOk;
      cand, candsum, Cjplus, kappai, K, alphai, R, stepOk :=
        SyncAdvance(pval, gammai, lam, alpha, tau, w0, selected, S, cand, candsum, Cjplus, kappai, K,
                    alphai, R);
      if !stepOk {
        SyncRunRows(pval, gammai, lam, alpha, tau, w0, alphai, R);
        return alphai, R, false;
      }
    }
    SyncRunRows(pval, gammai, lam, alpha, tau, w0, alphai, R);
    ok := true;
  }

  // ---------------------------------------------------------------------
  // Properties of the sync rule.

  /** tau*lambda <= tau when tau >= 0 and lambda <= 1: a candidate is always selected. */
  lemma CandLevelBelowTau(tau: real, lam: real)
    requires 0.0 <= tau && lam <= 1.0
    ensures CandLevel(tau, lam) <= tau
  {
    assert tau - tau * lam == tau * (1.0 - lam);
  }

  /**
   * With tau*lambda <= tau, S[i-1] - kappaistar - Cjplus is the number of
   * selected p-values in (t, i) that are not candidates, hence in [0, i - t - 1].
   */
  lemma SyncIndexCounts(pval: seq<real>, tau: real, lam: real, i: int, t: int)
    requires 0 <= t < i <= |pval| && CandLevel(tau, lam) <= tau
    ensures SyncIndex(pval, tau, lam, i, t) == CountIn(pval, t + 1, i, CandLevel(tau, lam), tau)
    ensures 0 <= SyncIndex(pval, tau, lam, i, t) <= i - t - 1
  {
    CountLeSplit(pval, 0, t + 1, i, tau);
    CountLeDifference(pval, t + 1, i, CandLevel(tau, lam), tau);
  }

  /** With tau*lambda <= tau, S[i-1] - candsum is the number of selected non-candidates among the first i. */
  lemma SyncBaseCounts(pval: seq<real>, tau: real, lam: real, i: int)
    requires 0 <= i <= |pval| && CandLevel(tau, lam) <= tau
    ensures SyncBase(pval, tau, lam, i) == CountIn(pval, 0, i, CandLevel(tau, lam), tau)
    ensures 0 <= SyncBase(pval, tau, lam, i) <= i
  {
    CountLeDifference(pval, 0, i, CandLevel(tau, lam), tau);
  }

  /**
   * With tau >= 0, lambda <= 1 and gammai longer than the history, every
   * gammai read of the sync step is in range: the threshold is defined.
   */
  lemma SyncDefined(pval: seq<real>, gammai: seq<real>, lam: real, alpha: real, tau: real, w0: real,
                    rs: seq<bool>)
    requires |rs| <= |pval| && |rs| < |gammai| && 0.0 <= tau && lam <= 1.0
    ensures SyncAlpha(pval, gammai, lam, alpha, tau, w0, rs).Some?
  {
    CandLevelBelowTau(tau, lam);
    SyncBaseCounts(pval, tau, lam, |rs|);
    var ts := Rejected(rs);
    var idx := SyncIndices(pval, tau, lam, rs);
    forall m | 0 <= m < |idx|
      ensures 0 <= idx[m] < |gammai|
    {
      SyncIndexCounts(pval, tau, lam, |rs|, ts[m]);
    }
  }

  /** Every gammai read is non-negative when gammai is. */
  lemma ReadsNonNegative(gammai: seq<real>, idx: seq<int>)
    requires InGamma(gammai, idx) && forall k :: 0 <= k < |gammai| ==> gammai[k] >= 0.0
    ensures forall m :: 0 <= m < |idx| ==> Reads(gammai, idx)[m] >= 0.0
  {
  }

  /**
   * The capped rule lies in [0, tau*lambda] when gammai >= 0, 0 <= w0 <= rate
   * and tau*lambda >= 0.
   */
  lemma CappedRuleBounds(g: real, w0: real, rate: real, terms: seq<real>, cl: real)
    requires g >= 0.0 && 0.0 <= w0 <= rate && 0.0 <= cl
    requires forall m :: 0 <= m < |terms| ==> terms[m] >= 0.0
    ensures 0.0 <= Min(cl, LordRule(g, w0, rate, terms)) <= cl
  {
    Saffron.LordRuleNonNegative(g, w0, rate, terms);
  }

  /** A sync threshold lies in [0, tau*lambda] for gammai >= 0, 0 <= w0 <= tau*(1-lambda)*alpha, tau*lambda >= 0. */
  lemma SyncAlphaBounds(pval: seq<real>, gammai: seq<real>, lam: real, alpha: real, tau: real, w0: real,
                        rs: seq<bool>)
    requires |rs| <= |pval| && forall k :: 0 <= k < |gammai| ==> gammai[k] >= 0.0
    requires 0.0 <= w0 <= AddisRate(tau, lam, alpha) && 0.0 <= CandLevel(tau, lam)
    requires SyncAlpha(pval, gammai, lam, alpha, tau, w0, rs).Some?
    ensures 0.0 <= SyncAlpha(pval, gammai, lam, alpha, tau, w0, rs).value <= CandLevel(tau, lam)
  {
    var idx := SyncIndices(pval, tau, lam, rs);
    ReadsNonNegative(gammai, idx);
    CappedRuleBounds(gammai[SyncBase(pval, tau, lam, |rs|)], w0, AddisRate(tau, lam, alpha),
                     Reads(gammai, idx), CandLevel(tau, lam));
  }

  // ---------------------------------------------------------------------
  // The async rule as a function of the decision history.

  /**
   * Ssum of the async step i over j < n: j counts when it is selected and its
   * outcome has arrived (E[j] - 1 <= i - 1), and also when it has not arrived
   * (E[j] - 1 >= i).
   */
  function SeenSelected(pval: seq<real>, E: seq<int>, tau: real, n: int, i: int): (c: nat)
    requires 0 <= n <= |pval| && n <= |E|
    ensures c <= n
  {
    if n == 0 then 0
    else
      SeenSelected(pval, E, tau, n - 1, i) + B2I(pval[n - 1] <= tau && Arrived(E[n - 1], i)) +
      B2I(!Arrived(E[n - 1], i))
  }

  /** S[i-1] - candsum of the async step i: candsum counts only the candidates whose outcome has arrived. */
  function AsyncBase(pval: seq<real>, E: seq<int>, tau: real, lam: real, i: int): int
    requires 0 <= i <= |pval| && i <= |E|
  {
    SeenSelected(pval, E, tau, i, i) - CountLeArrived(pval, E, 0, i, CandLevel(tau, lam), i)
  }

  /**
   * S[i-1] - kappaistar - Cjplus for the visible rejection t at the async step
   * i: kappaistar counts every selected p-value up to t, arrived or not, while
   * Cjplus counts only the arrived candidates in (t, i).
   */
  function AsyncIndex(pval: seq<real>, E: seq<int>, tau: real, lam: real, i: int, t: int): int
    requires 0 <= t < i <= |pval| && i <= |E|
  {
    SeenSelected(pval, E, tau, i, i) - CountLe(pval, 0, t + 1, tau) -
    CountLeArrived(pval, E, t + 1, i, CandLevel(tau, lam), i)
  }

  /** The gammai index of every visible rejection at step |rs|. */
  function AsyncIndices(pval: seq<real>, E: seq<int>, tau: real, lam: real, rs: seq<bool>): (idx: seq<int>)
    requires |rs| <= |pval| && |rs| <= |E|
    ensures |idx| == |Visible(rs, E, |rs|)|
  {
    var ts := Visible(rs, E, |rs|);
    seq(|ts|, j requires 0 <= j < |ts| => AsyncIndex(pval, E, tau, lam, |rs|, ts[j]))
  }

  /** Every gammai read of the async step |rs| is inside gammai. */
  predicate AsyncInRange(pval: seq<real>, E: seq<int>, gammai: seq<real>, tau: real, lam: real, rs: seq<bool>)
    requires |rs| <= |pval| && |rs| <= |E|
  {
    0 <= AsyncBase(pval, E, tau, lam, |rs|) < |gammai| && InGamma(gammai, AsyncIndices(pval, E, tau, lam, rs))
  }

  /**
   * alphai[i] of addis_async_faster at step i = |rs| >= 1: the sync rule on
   * the visible rejections and the arrived counts, capped at tau*lambda; None
   * when a read falls outside gammai.
   */
  function AsyncAlpha(pval: seq<real>, E: seq<int>, gammai: seq<real>, lam: real, alpha: real, tau: real,
                      w0: real, rs: seq<bool>): Option<real>
    requires |rs| <= |pval| && |rs| <= |E|
  {
    if !AsyncInRange(pval, E, gammai, tau, lam, rs) then None
    else
      Some(Min(CandLevel(tau, lam),
               LordRule(gammai[AsyncBase(pval, E, tau, lam, |rs|)], w0, AddisRate(tau, lam, alpha),
                        Reads(gammai, AsyncIndices(pval, E, tau, lam, rs)))))
  }

  // ---------------------------------------------------------------------
  // The async loops.

  /** kappai rebuilt at step i: every j <= i-1 with R[j] and E[j] - 1 <= i - 1, in order. */
  method VisibleRejections(R: seq<bool>, E: seq<int>, i: int) returns (kappai: seq<int>)
    requires i == |R| <= |E|
    ensures kappai == Visible(R, E, i)
  {
    kappai := [];
    var j := 0;
    while j <= i - 1
      invariant 0 <= j <= i
      invariant kappai == Visible(R[..j], E, i)
    {
      assert R[..j + 1][..j] == R[..j];
      if R[j] && (E[j] - 1 <= i - 1) {
        kappai := kappai + [j];
      }
      j := j + 1;
    }
    assert R[..i] == R;
  }

  /**
   * The count "cand[k] && E[k] - 1 <= i - 1" over k = start..max(i-1, start):
   * the arrived candidates in [start, i), cand[i] being still 0.
   */
  method ArrivedCands(pval: seq<real>, E: seq<int>, cl: real, cand: seq<int>, start: int, to: int, i: int)
    returns (c: int)
    requires Saffron.CandWritten(pval, cl, cand, i) && |cand| == |pval| <= |E|
    requires 0 <= start <= i < |cand| && to == MaxInt(i - 1, start)
    ensures c == CountLeArrived(pval, E, start, i, cl, i)
  {
    c := 0;
    var k := start;
    while k <= to
      invariant start <= k <= to + 1
      invariant c == CountLeArrived(pval, E, start, MinInt(k, i), cl, i)
    {
      if cand[k] != 0 && E[k] - 1 <= i - 1 {
        c := c + 1;
      }
      k := k + 1;
    }
  }

  /** The Ssum loop: S[i-1] of the async step i. */
  method SeenSelectedCount(pval: seq<real>, E: seq<int>, tau: real, selected: seq<bool>, i: int)
    returns (Ssum: int)
    requires SelectionOf(pval, tau, selected) && 0 <= i <= |pval| <= |E|
    ensures Ssum == SeenSelected(pval, E, tau, i, i)
  {
    Ssum := 0;
    var j := 0;
    while j <= i - 1
      invariant 0 <= j <= MaxInt(i, 0) && Ssum == SeenSelected(pval, E, tau, j, i)
    {
      if selected[j] && (E[j] - 1 <= i - 1) {
        Ssum := Ssum + 1;
      }
      if E[j] - 1 >= i {
        Ssum := Ssum + 1;
      }
      j := j + 1;
    }
  }

  /** The K > 1 Cjplus loop: Cjplus[j] recounted for every visible rejection. */
  method AsyncCjplus(pval: seq<real>, E: seq<int>, cl: real, cand: seq<int>, Cjplus: seq<int>,
                     kappai: seq<int>, K: int, i: int)
    returns (Cjplus': seq<int>)
    requires Saffron.CandWritten(pval, cl, cand, i) && |cand| == |pval| <= |E| && 1 <= i < |cand|
    requires K == |kappai| <= |Cjplus| && forall m :: 0 <= m < K ==> 0 <= kappai[m] < i
    ensures |Cjplus'| == |Cjplus|
    ensures forall m :: 0 <= m < K ==> Cjplus'[m] == CountLeArrived(pval, E, kappai[m] + 1, i, cl, i)
  {
    Cjplus' := Cjplus;
    var j := 0;
    while j < K
      invariant 0 <= j <= K && |Cjplus'| == |Cjplus|
      invariant forall m :: 0 <= m < j ==> Cjplus'[m] == CountLeArrived(pval, E, kappai[m] + 1, i, cl, i)
    {
      var start := kappai[j] + 1;
      var sum := ArrivedCands(pval, E, cl, cand, start, MaxInt(i - 1, start), i);
      Cjplus' := Cjplus'[j := sum];
      j := j + 1;
    }
  }

  /** The Cjplussum loop: gammai[S[i-1] - kappaistar[j] - Cjplus[j]] summed over j < K. */
  method ReadSum(gammai: seq<real>, Sl: int, ks: seq<int>, cj: seq<int>, K: int, ghost idx: seq<int>)
    returns (ok: bool, s: real)
    requires K == |idx| <= |ks| && K <= |cj|
    requires forall m :: 0 <= m < K ==> idx[m] == Sl - ks[m] - cj[m]
    ensures ok <==> InGamma(gammai, idx)
    ensures ok ==> s == Sum(Reads(gammai, idx))
  {
    s := 0.0;
    var j := 0;
    while j < K
      invariant 0 <= j <= K
      invariant InGamma(gammai, idx[..j]) && s == Sum(Reads(gammai, idx[..j]))
    {
      var ix := Sl - ks[j] - cj[j];
      if !(0 <= ix < |gammai|) {
        OutOfGamma(gammai, idx, K, j);
        return false, s;
      }
      ReadsSnoc(gammai, idx, j);
      s := s + gammai[ix];
      j := j + 1;
    }
    assert idx[..K] == idx;
    ok := true;
  }

  /**
   * The async K > 1 branch on the visible rejection list kappai: Cjplus
   * recounted, Cjplussum = the sum of all K terms minus the first, then
   * alphaitilde.
   */
  method AsyncManyList(pval: seq<real>, E: seq<int>, gammai: seq<real>, cl: real, rate: real, w0: real,
                       cand: seq<int>, Cjplus: seq<int>, kappai: seq<int>, ks: seq<int>, Sl: int, candsum: int,
                       K: int, i: int, ghost idx: seq<int>)
    returns (Cjplus': seq<int>, ok: bool, tilde: real)
    requires Saffron.CandWritten(pval, cl, cand, i) && |cand| == |pval| <= |E| && 1 <= i < |cand|
    requires 2 <= K == |kappai| == |ks| == |idx| <= |Cjplus| && forall m :: 0 <= m < K ==> 0 <= kappai[m] < i
    requires forall m :: 0 <= m < K ==> idx[m] == Sl - ks[m] - CountLeArrived(pval, E, kappai[m] + 1, i, cl, i)
    ensures |Cjplus'| == |Cjplus|
    ensures ok <==> InGamma(gammai, idx) && 0 <= Sl - candsum < |gammai|
    ensures ok ==> tilde == LordRule(gammai[Sl - candsum], w0, rate, Reads(gammai, idx))
  {
    Cjplus' := AsyncCjplus(pval, E, cl, cand, Cjplus, kappai, K, i);
    var s;
    ok, s := ReadSum(gammai, Sl, ks, Cjplus', K, idx);
    if !ok {
      return Cjplus', false, 0.0;
    }
    var first := gammai[Sl - ks[0] - Cjplus'[0]];
    var rest := s - first;
    SumFirst(Reads(gammai, idx));
    var baseIx := Sl - candsum;
    if !(0 <= baseIx < |gammai|) {
      return Cjplus', false, 0.0;
    }
    LordRuleCases(gammai[baseIx], w0, rate, Reads(gammai, idx));
    tilde := LordHigh(gammai[baseIx], w0, rate, first, rest);
  }

  // ---------------------------------------------------------------------
  // The async step on the decision history.

  /** The uncapped rule on the reads of R, capped at tau*lambda, is the async threshold. */
  lemma CappedIsAsync(pval: seq<real>, E: seq<int>, gammai: seq<real>, lam: real, alpha: real, tau: real,
                      w0: real, R: seq<bool>, b: int, idx: seq<int>, ok: bool, tilde: real)
    requires |R| <= |pval| && |R| <= |E|
    requires b == AsyncBase(pval, E, tau, lam, |R|) && idx == AsyncIndices(pval, E, tau, lam, R)
    requires ok <==> 0 <= b < |gammai| && InGamma(gammai, idx)
    requires ok ==> tilde == LordRule(gammai[b], w0, AddisRate(tau, lam, alpha), Reads(gammai, idx))
    ensures ok <==> AsyncAlpha(pval, E, gammai, lam, alpha, tau, w0, R).Some?
    ensures ok ==> AsyncAlpha(pval, E, gammai, lam, alpha, tau, w0, R) == Some(Min(CandLevel(tau, lam), tilde))
  {
  }

  /** The async K > 1 branch on the decision history R, capped at tau*lambda. */
  method AsyncMany(pval: seq<real>, E: seq<int>, gammai: seq<real>, lam: real, alpha: real, tau: real, w0: real,
                   selected: seq<bool>, cand: seq<int>, Cjplus: seq<int>, kappai: seq<int>, Ssum: int,
                   candsum: int, R: seq<bool>)
    returns (Cjplus': seq<int>, ok: bool, a: real)
    requires 1 <= |R| < |pval| == |cand| <= |E| && |Cjplus| == |pval| && SelectionOf(pval, tau, selected)
    requires Saffron.CandWritten(pval, CandLevel(tau, lam), cand, |R|)
    requires kappai == Visible(R, E, |R|) && |kappai| >= 2
    requires Ssum == SeenSelected(pval, E, tau, |R|, |R|)
    requires candsum == CountLeArrived(pval, E, 0, |R|, CandLevel(tau, lam), |R|)
    ensures |Cjplus'| == |Cjplus|
    ensures ok <==> AsyncAlpha(pval, E, gammai, lam, alpha, tau, w0, R).Some?
    ensures ok ==> AsyncAlpha(pval, E, gammai, lam, alpha, tau, w0, R) == Some(a)
  {
    var i := |R|;
    var K := |kappai|;
    var cl := CandLevel(tau, lam);
    ghost var idx := AsyncIndices(pval, E, tau, lam, R);
    var ks := KappaStar(pval, tau, selected, kappai);
    var tilde;
    Cjplus', ok, tilde := AsyncManyList(pval, E, gammai, cl, AddisRate(tau, lam, alpha), w0, cand, Cjplus,
                                        kappai, ks, Ssum, candsum, K, i, idx);
    assert AsyncBase(pval, E, tau, lam, i) == Ssum - candsum;
    CappedIsAsync(pval, E, gammai, lam, alpha, tau, w0, R, Ssum - candsum, idx, ok, tilde);
    a := 0.0;
    if ok {
      a := Min(cl, tilde);
    }
  }

  /** The async K == 1 branch on the decision history R. */
  method AsyncOne(pval: seq<real>, E: seq<int>, gammai: seq<real>, lam: real, alpha: real, tau: real, w0: real,
                  selected: seq<bool>, cand: seq<int>, Cjplus: seq<int>, kappai: seq<int>, Ssum: int,
                  candsum: int, R: seq<bool>)
    returns (Cjplus': seq<int>, ok: bool, a: real)
    requires 1 <= |R| < |pval| == |cand| <= |E| && |Cjplus| == |pval| && SelectionOf(pval, tau, selected)
    requires Saffron.CandWritten(pval, CandLevel(tau, lam), cand, |R|)
    requires kappai == Visible(R, E, |R|) && |kappai| == 1
    requires Ssum == SeenSelected(pval, E, tau, |R|, |R|)
    requires candsum == CountLeArrived(pval, E, 0, |R|, CandLevel(tau, lam), |R|)
    ensures |Cjplus'| == |Cjplus|
    ensures ok <==> AsyncAlpha(pval, E, gammai, lam, alpha, tau, w0, R).Some?
    ensures ok ==> AsyncAlpha(pval, E, gammai, lam, alpha, tau, w0, R) == Some(a)
  {
    var i := |R|;
    var cl := CandLevel(tau, lam);
    ghost var idx := AsyncIndices(pval, E, tau, lam, R);
    var kappaistar := SelectedThrough(pval, tau, selected, kappai[0]);
    var start := kappai[0] + 1;
    var c := ArrivedCands(pval, E, cl, cand, start, MaxInt(i - 1, start), i);
    Cjplus' := Cjplus[0 := c];
    var baseIx := Ssum - candsum;
    var termIx := Ssum - kappaistar - Cjplus'[0];
    assert |idx| == 1 && idx[0] == termIx && AsyncBase(pval, E, tau, lam, i) == baseIx;
    if !(0 <= baseIx < |gammai| && 0 <= termIx < |gammai|) {
      return Cjplus', false, 0.0;
    }
    var rate := AddisRate(tau, lam, alpha);
    assert InGamma(gammai, idx) && Reads(gammai, idx) == [gammai[termIx]];
    LordRuleCases(gammai[baseIx], w0, rate, Reads(gammai, idx));
    var tilde := LordLow(gammai[baseIx], w0, rate, gammai[termIx]);
    CappedIsAsync(pval, E, gammai, lam, alpha, tau, w0, R, baseIx, idx, true, tilde);
    ok := true;
    a := Min(cl, tilde);
  }

  /** The async K == 0 branch on the decision history R. */
  method AsyncNone(pval: seq<real>, E: seq<int>, gammai: seq<real>, lam: real, alpha: real, tau: real, w0: real,
                   Ssum: int, candsum: int, R: seq<bool>)
    returns (ok: bool, a: real)
    requires 1 <= |R| < |pval| <= |E| && |Visible(R, E, |R|)| == 0
    requires Ssum == SeenSelected(pval, E, tau, |R|, |R|)
    requires candsum == CountLeArrived(pval, E, 0, |R|, CandLevel(tau, lam), |R|)
    ensures ok <==> AsyncAlpha(pval, E, gammai, lam, alpha, tau, w0, R).Some?
    ensures ok ==> AsyncAlpha(pval, E, gammai, lam, alpha, tau, w0, R) == Some(a)
  {
    var baseIx := Ssum - candsum;
    assert AsyncIndices(pval, E, tau, lam, R) == [] && AsyncBase(pval, E, tau, lam, |R|) == baseIx;
    if !(0 <= baseIx < |gammai|) {
      return false, 0.0;
    }
    LordRuleCases(gammai[baseIx], w0, AddisRate(tau, lam, alpha), []);
    CappedIsAsync(pval, E, gammai, lam, alpha, tau, w0, R, baseIx, [], true, w0 * gammai[baseIx]);
    ok := true;
    a := Min(CandLevel(tau, lam), w0 * gammai[baseIx]);
  }

  /** The counts of the async step i: kappai, cand[i-1], candsum and S[i-1]. */
  method AsyncCounts(pval: seq<real>, E: seq<int>, lam: real, tau: real, selected: seq<bool>,
                     cand: seq<int>, R: seq<bool>)
    returns (kappai: seq<int>, cand': seq<int>, candsum: int, Ssum: int)
    requires 1 <= |R| < |pval| == |cand| <= |E| && SelectionOf(pval, tau, selected)
    requires Saffron.CandWritten(pval, CandLevel(tau, lam), cand, |R| - 1)
    ensures kappai == Visible(R, E, |R|) && |cand'| == |cand|
    ensures Saffron.CandWritten(pval, CandLevel(tau, lam), cand', |R|)
    ensures candsum == CountLeArrived(pval, E, 0, |R|, CandLevel(tau, lam), |R|)
    ensures Ssum == SeenSelected(pval, E, tau, |R|, |R|)
  {
    var i := |R|;
    var cl := CandLevel(tau, lam);
    kappai := VisibleRejections(R, E, i);
    cand' := cand[i - 1 := B2I(pval[i - 1] <= cl)];
    candsum := ArrivedCands(pval, E, cl, cand', 0, i - 1, i);
    Ssum := SeenSelectedCount(pval, E, tau, selected, i);
  }

  /** Step i >= 1 of addis_async_faster, up to alphai[i]; ok == false when a gammai read is out of range. */
  method AsyncStep(pval: seq<real>, E: seq<int>, gammai: seq<real>, lam: real, alpha: real, tau: real,
                   w0: real, selected: seq<bool>, cand: seq<int>, Cjplus: seq<int>, R: seq<bool>)
    returns (cand': seq<int>, Cjplus': seq<int>, ok: bool, a: real)
    requires 1 <= |R| < |pval| == |cand| == |Cjplus| <= |E| && SelectionOf(pval, tau, selected)
    requires Saffron.CandWritten(pval, CandLevel(tau, lam), cand, |R| - 1)
    ensures |cand'| == |cand| && |Cjplus'| == |Cjplus|
    ensures Saffron.CandWritten(pval, CandLevel(tau, lam), cand', |R|)
    ensures ok <==> AsyncAlpha(pval, E, gammai, lam, alpha, tau, w0, R).Some?
    ensures ok ==> AsyncAlpha(pval, E, gammai, lam, alpha, tau, w0, R) == Some(a)
  {
    var kappai, candsum, Ssum;
    kappai, cand', candsum, Ssum := AsyncCounts(pval, E, lam, tau, selected, cand, R);
    var K := |kappai|;
    if K > 1 {
      Cjplus', ok, a := AsyncMany(pval, E, gammai, lam, alpha, tau, w0, selected, cand', Cjplus, kappai,
                                  Ssum, candsum, R);
    } else if K == 1 {
      Cjplus', ok, a := AsyncOne(pval, E, gammai, lam, alpha, tau, w0, selected, cand', Cjplus, kappai,
                                 Ssum, candsum, R);
    } else {
      Cjplus' := Cjplus;
      ok, a := AsyncNone(pval, E, gammai, lam, alpha, tau, w0, Ssum, candsum, R);
    }
  }

  /** The async rule as a function of the history alone; None beyond pval. */
  function AsyncRule(pval: seq<real>, E: seq<int>, gammai: seq<real>, lam: real, alpha: real, tau: real,
                     w0: real): (f: seq<bool> -> Option<real>)
    ensures forall rs :: |rs| <= |pval| && |rs| <= |E| ==>
              f(rs) == AsyncAlpha(pval, E, gammai, lam, alpha, tau, w0, rs)
  {
    rs => if |rs| <= |pval| && |rs| <= |E| then AsyncAlpha(pval, E, gammai, lam, alpha, tau, w0, rs) else None
  }

  /** alphai and R of an async run: every alphai[k], k >= 1, is AsyncAlpha on the first k decisions. */
  ghost predicate IsAsyncRun(pval: seq<real>, E: seq<int>, gammai: seq<real>, lam: real, alpha: real,
                             tau: real, w0: real, alphai: seq<real>, R: seq<bool>)
  {
    |R| <= |pval| <= |E| &&
    IsRunOf(AsyncRule(pval, E, gammai, lam, alpha, tau, w0), alphai, R)
  }

  /** Every threshold of an async run after the first, one index at a time. */
  lemma AsyncRunRows(pval: seq<real>, E: seq<int>, gammai: seq<real>, lam: real,
                     alpha: real, tau: real, w0: real, alphai: seq<real>, R: seq<bool>)
    requires IsAsyncRun(pval, E, gammai, lam, alpha, tau, w0, alphai, R)
    ensures forall k {:trigger alphai[k]} :: 1 <= k < |R| ==>
              AsyncAlpha(pval, E, gammai, lam, alpha, tau, w0, R[..k]) == Some(alphai[k]) &&
              alphai[k] <= CandLevel(tau, lam)
  {
    var f := AsyncRule(pval, E, gammai, lam, alpha, tau, w0);
    RunOfRows(f, alphai, R);
    forall k | 1 <= k < |R|
      ensures AsyncAlpha(pval, E, gammai, lam, alpha, tau, w0, R[..k]) == Some(alphai[k]) &&
              alphai[k] <= CandLevel(tau, lam)
    {
      assert f(R[..k]) == Some(alphai[k]);
    }
  }

  /** One iteration of the async main loop: step |R| and its decision. */
  method AsyncAdvance(pval: seq<real>, E: seq<int>, gammai: seq<real>, lam: real, alpha: real, tau: real,
                      w0: real, selected: seq<bool>, cand: seq<int>, Cjplus: seq<int>, alphai: seq<real>,
                      R: seq<bool>)
    returns (cand': seq<int>, Cjplus': seq<int>, alphai': seq<real>, R': seq<bool>, ok: bool)
    requires 1 <= |R| < |pval| == |cand| == |Cjplus| <= |E| && SelectionOf(pval, tau, selected)
    requires Saffron.CandWritten(pval, CandLevel(tau, lam), cand, |R| - 1)
    requires IsAsyncRun(pval, E, gammai, lam, alpha, tau, w0, alphai, R) && Decided(pval, alphai, R)
    ensures !ok ==> alphai' == alphai && R' == R && AsyncAlpha(pval, E, gammai, lam, alpha, tau, w0, R).None?
    ensures ok ==> |R'| == |R| + 1 && |alphai'| == |R'| && alphai'[0] == alphai[0]
    ensures ok ==> |cand'| == |cand| && |Cjplus'| == |Cjplus|
    ensures ok ==> Saffron.CandWritten(pval, CandLevel(tau, lam), cand', |R'| - 1)
    ensures ok ==> IsAsyncRun(pval, E, gammai, lam, alpha, tau, w0, alphai', R') && Decided(pval, alphai', R')
  {
    var i := |R|;
    var a;
    cand', Cjplus', ok, a := AsyncStep(pval, E, gammai, lam, alpha, tau, w0, selected, cand, Cjplus, R);
    if !ok {
      return cand', Cjplus', alphai, R, false;
    }
    var b := pval[i] <= a;
    DecisionsSnoc(pval, alphai, R, a, b);
    RunOfSnoc(AsyncRule(pval, E, gammai, lam, alpha, tau, w0), alphai, R, a, b);
    assert (alphai + [a])[..i] == alphai;
    alphai' := alphai + [a];
    R' := R + [b];
  }

  /**
   * addis_async_faster. alphai[0] = w0*gammai[0] is not capped; every later
   * alphai[k] is AsyncAlpha on the first k decisions. The run stops with
   * ok == false at the first step whose gammai reads leave gammai.
   */
  method AsyncFaster(pval: seq<real>, E: seq<int>, gammai: seq<real>, lam: real, alpha: real, tau: real,
                     w0: real)
    returns (alphai: seq<real>, R: seq<bool>, ok: bool)
    requires |pval| >= 1 && |gammai| >= 1 && |E| >= |pval|
    ensures 1 <= |alphai| == |R| <= |pval|
    ensures alphai[0] == w0 * gammai[0]
    ensures forall k {:trigger alphai[k]} :: 1 <= k < |R| ==>
              AsyncAlpha(pval, E, gammai, lam, alpha, tau, w0, R[..k]) == Some(alphai[k]) &&
              alphai[k] <= CandLevel(tau, lam)
    ensures forall k {:trigger pval[k]} :: 0 <= k < |R| ==> R[k] == (pval[k] <= alphai[k])
    ensures ok <==> |R| == |pval|
    ensures !ok ==> AsyncAlpha(pval, E, gammai, lam, alpha, tau, w0, R).None?
  {
    var N := |pval|;
    var cand := seq(N, _ => 0);
    var Cjplus := seq(N, _ => 0);
    var selected := seq(N, k requires 0 <= k < N => pval[k] <= tau);
    alphai := [w0 * gammai[0]];
    R := [pval[0] <= alphai[0]];
    while |R| < N
      invariant 1 <= |R| <= N && |cand| == N && |Cjplus| == N
      invariant Saffron.CandWritten(pval, CandLevel(tau, lam), cand, |R| - 1)
      invariant IsAsyncRun(pval, E, gammai, lam, alpha, tau, w0, alphai, R) && Decided(pval, alphai, R)
      invariant alphai[0] == w0 * gammai[0]
      decreases N - |R|
    {
      var stepOk;
      cand, Cjplus, alphai, R, stepOk :=
        AsyncAdvance(pval, E, gammai, lam, alpha, tau, w0, selected, cand, Cjplus, alphai, R);
      if !stepOk {
        AsyncRunRows(pval, E, gammai, lam, alpha, tau, w0, alphai, R);
        return alphai, R, false;
      }
    }
    AsyncRunRows(pval, E, gammai, lam, alpha, tau, w0, alphai, R);
    ok := true;
  }

  // ---------------------------------------------------------------------
  // Properties of the async rule.

  /** Counting only the arrived items never counts more. */
  lemma {:induction false} ArrivedAtMost(p: seq<real>, e: seq<int>, lo: int, hi: int, thr: real, i: int)
    requires 0 <= lo <= hi <= |p| && hi <= |e|
    ensures CountLeArrived(p, e, lo, hi, thr, i) <= CountLe(p, lo, hi, thr)
    decreases hi - lo
  {
    if lo < hi {
      ArrivedAtMost(p, e, lo, hi - 1, thr, i);
    }
  }

  /** S[i-1] counts at least every selected p-value among the first n. */
  lemma {:induction false} SeenAtLeast(pval: seq<real>, E: seq<int>, tau: real, n: int, i: int)
    requires 0 <= n <= |pval| && n <= |E|
    ensures CountLe(pval, 0, n, tau) <= SeenSelected(pval, E, tau, n, i)
  {
    if n > 0 {
      SeenAtLeast(pval, E, tau, n - 1, i);
    }
  }

  /** With tau*lambda <= tau, candsum <= S[i-1] <= i at the async step i. */
  lemma AsyncCountsOrdered(pval: seq<real>, E: seq<int>, tau: real, lam: real, i: int)
    requires 0 <= i <= |pval| <= |E| && CandLevel(tau, lam) <= tau
    ensures CountLeArrived(pval, E, 0, i, CandLevel(tau, lam), i) <= SeenSelected(pval, E, tau, i, i) <= i
  {
    ArrivedAtMost(pval, E, 0, i, CandLevel(tau, lam), i);
    CountLeDifference(pval, 0, i, CandLevel(tau, lam), tau);
    SeenAtLeast(pval, E, tau, i, i);
  }

  /** With tau*lambda <= tau every async index S[i-1] - kappaistar - Cjplus lies in [0, i]. */
  lemma AsyncIndexBounds(pval: seq<real>, E: seq<int>, tau: real, lam: real, i: int, t: int)
    requires 0 <= t < i <= |pval| <= |E| && CandLevel(tau, lam) <= tau
    ensures 0 <= AsyncIndex(pval, E, tau, lam, i, t) <= i
  {
    var cl := CandLevel(tau, lam);
    CountLeSplit(pval, 0, t + 1, i, tau);
    ArrivedAtMost(pval, E, t + 1, i, cl, i);
    CountLeDifference(pval, t + 1, i, cl, tau);
    SeenAtLeast(pval, E, tau, i, i);
    assert CountLe(pval, 0, t + 1, tau) >= 0 && CountLe(pval, 0, t + 1, tau) + CountLe(pval, t + 1, i, tau) <= i;
  }

  /**
   * With tau >= 0, lambda <= 1 and gammai longer than the history, every
   * gammai read of the async step is in range: the threshold is defined.
   */
  lemma AsyncDefined(pval: seq<real>, E: seq<int>, gammai: seq<real>, lam: real, alpha: real, tau: real,
                     w0: real, rs: seq<bool>)
    requires |rs| <= |pval| <= |E| && |rs| < |gammai| && 0.0 <= tau && lam <= 1.0
    ensures AsyncAlpha(pval, E, gammai, lam, alpha, tau, w0, rs).Some?
  {
    CandLevelBelowTau(tau, lam);
    AsyncCountsOrdered(pval, E, tau, lam, |rs|);
    var ts := Visible(rs, E, |rs|);
    var idx := AsyncIndices(pval, E, tau, lam, rs);
    forall m | 0 <= m < |idx|
      ensures 0 <= idx[m] < |gammai|
    {
      AsyncIndexBounds(pval, E, tau, lam, |rs|, ts[m]);
    }
  }

  /** An async threshold lies in [0, tau*lambda] for gammai >= 0, 0 <= w0 <= tau*(1-lambda)*alpha, tau*lambda >= 0. */
  lemma AsyncAlphaBounds(pval: seq<real>, E: seq<int>, gammai: seq<real>, lam: real, alpha: real, tau: real,
                         w0: real, rs: seq<bool>)
    requires |rs| <= |pval| <= |E| && forall k :: 0 <= k < |gammai| ==> gammai[k] >= 0.0
    requires 0.0 <= w0 <= AddisRate(tau, lam, alpha) && 0.0 <= CandLevel(tau, lam)
    requires AsyncAlpha(pval, E, gammai, lam, alpha, tau, w0, rs).Some?
    ensures 0.0 <= AsyncAlpha(pval, E, gammai, lam, alpha, tau, w0, rs).value <= CandLevel(tau, lam)
  {
    var idx := AsyncIndices(pval, E, tau, lam, rs);
    ReadsNonNegative(gammai, idx);
    CappedRuleBounds(gammai[AsyncBase(pval, E, tau, lam, |rs|)], w0, AddisRate(tau, lam, alpha),
                     Reads(gammai, idx), CandLevel(tau, lam));
  }

  /** When every outcome among the first n has arrived, S[i-1] is the plain selected count. */
  lemma {:induction false} SeenAllArrived(pval: seq<real>, E: seq<int>, tau: real, n: int, i: int)
    requires 0 <= n <= |pval| && n <= |E| && forall j :: 0 <= j < n ==> Arrived(E[j], i)
    ensures SeenSelected(pval, E, tau, n, i) == CountLe(pval, 0, n, tau)
  {
    if n > 0 {
      SeenAllArrived(pval, E, tau, n - 1, i);
    }
  }

  /** When every outcome in [lo, hi) has arrived, the arrived count is the plain count. */
  lemma {:induction false} ArrivedAll(p: seq<real>, e: seq<int>, lo: int, hi: int, thr: real, i: int)
    requires 0 <= lo && hi <= |p| && hi <= |e| && forall j :: lo <= j < hi ==> Arrived(e[j], i)
    ensures CountLeArrived(p, e, lo, hi, thr, i) == CountLe(p, lo, hi, thr)
    decreases hi - lo
  {
    if lo < hi {
      ArrivedAll(p, e, lo, hi - 1, thr, i);
    }
  }

  /** When every outcome has arrived, the visible rejections are all the rejections. */
  lemma {:induction false} VisibleAll(rs: seq<bool>, E: seq<int>, i: int)
    requires |rs| <= |E| && forall j :: 0 <= j < |rs| ==> Arrived(E[j], i)
    ensures Visible(rs, E, i) == Rejected(rs)
  {
    if |rs| > 0 {
      VisibleAll(rs[..|rs| - 1], E, i);
    }
  }

  /**
   * When every outcome is known by the next step (E[j] <= j + 1), the async
   * threshold is the sync threshold.
   */
  lemma AsyncMatchesSync(pval: seq<real>, E: seq<int>, gammai: seq<real>, lam: real, alpha: real, tau: real,
                         w0: real, rs: seq<bool>)
    requires |rs| <= |pval| <= |E| && forall j :: 0 <= j < |rs| ==> E[j] <= j + 1
    ensures AsyncAlpha(pval, E, gammai, lam, alpha, tau, w0, rs) ==
            SyncAlpha(pval, gammai, lam, alpha, tau, w0, rs)
  {
    var i := |rs|;
    var cl := CandLevel(tau, lam);
    SeenAllArrived(pval, E, tau, i, i);
    ArrivedAll(pval, E, 0, i, cl, i);
    VisibleAll(rs, E, i);
    var ts := Rejected(rs);
    forall m | 0 <= m < |ts|
      ensures AsyncIndex(pval, E, tau, lam, i, ts[m]) == SyncIndex(pval, tau, lam, i, ts[m])
    {
      ArrivedAll(pval, E, ts[m] + 1, i, cl, i);
    }
    assert AsyncIndices(pval, E, tau, lam, rs) == SyncIndices(pval, tau, lam, rs);
    assert AsyncBase(pval, E, tau, lam, i) == SyncBase(pval, tau, lam, i);
  }
}
