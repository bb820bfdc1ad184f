/*
 * The SAFFRON kernels of the R package's own C++ file: a copy of
 * saffron_faster, and saffron_rcpp_full, which continues a SAFFRON run on
 * state vectors supplied (and updated in place) by its caller, with a
 * candidate count carried in.
 *
 * The parameter lam is the source's lambda.
 */
module RSaffron {
  import opened Common
  import opened Lord
  import opened Saffron

  /**
   * al and rs follow the SAFFRON recurrence from step 1 on, with c0
   * candidates carried in; entry 0 is whatever the run started from.
   */
  ghost predicate IsSaffronRun(pval: seq<real>, gammai: seq<real>, lam: real, alpha: real, w0: real,
                               c0: int, al: seq<real>, rs: seq<bool>)
  {
    |al| == |rs| <= |pval| <= |gammai| &&
    forall k {:trigger al[k]} :: 1 <= k < |al| ==>
      0 <= BaseIndex(pval, lam, c0, k) < |gammai| &&
      al[k] == SaffronAlpha(pval, gammai, lam, alpha, w0, c0, rs[..k]) && al[k] <= lam &&
      rs[k] == (pval[k] <= al[k])
  }

  /**
   * saffron_faster as copied into the R package: the same computation as
   * Saffron.SaffronFaster.
   */
  method SaffronFaster(pval: seq<real>, gammai: seq<real>, lam: real, alpha: real, w0: real)
    returns (alphai: seq<real>, R: seq<bool>)
    requires |pval| >= 1 && |gammai| >= |pval|
    ensures |alphai| == |pval| && |R| == |pval|
    ensures alphai[0] == Min((1.0 - lam) * gammai[0] * w0, lam) && R[0] == (pval[0] <= alphai[0])
    ensures IsSaffronRun(pval, gammai, lam, alpha, w0, 0, alphai, R)
  {
    alphai, R := Saffron.SaffronFaster(pval, gammai, lam, alpha, w0);
    FasterIsRun(pval, gammai, lam, alpha, w0, alphai, R);
  }

  /** The characterization of saffron_faster's outputs is a SAFFRON run with no candidate carried in. */
  lemma FasterIsRun(pval: seq<real>, gammai: seq<real>, lam: real, alpha: real, w0: real,
                    alphai: seq<real>, R: seq<bool>)
    requires |alphai| == |pval| == |R| && |gammai| >= |pval|
    requires forall k {:trigger alphai[k]} :: 0 <= k < |pval| ==>
               alphai[k] == SaffronAlpha(pval, gammai, lam, alpha, w0, 0, R[..k]) && alphai[k] <= lam
    requires forall k {:trigger alphai[k]} :: 0 <= k < |pval| ==> R[k] == (pval[k] <= alphai[k])
    ensures IsSaffronRun(pval, gammai, lam, alpha, w0, 0, alphai, R)
  {
    forall k | 1 <= k < |alphai|
      ensures 0 <= BaseIndex(pval, lam, 0, k) < |gammai|
    {
    }
  }

  /**
   * The recurrence determines a run: two runs of the same length that
   * start from the same entry 0 are equal.
   */
  lemma SaffronRunUnique(pval: seq<real>, gammai: seq<real>, lam: real, alpha: real, w0: real,
                         c0: int, a1: seq<real>, r1: seq<bool>, a2: seq<real>, r2: seq<bool>)
    requires IsSaffronRun(pval, gammai, lam, alpha, w0, c0, a1, r1)
    requires IsSaffronRun(pval, gammai, lam, alpha, w0, c0, a2, r2)
    requires |a1| == |a2| >= 1 && a1[0] == a2[0] && r1[0] == r2[0]
    ensures a1 == a2 && r1 == r2
  {
    RunsAgreeUpTo(pval, gammai, lam, alpha, w0, c0, a1, r1, a2, r2, |a1|);
  }

  /** Two such runs agree on their first k entries. */
  lemma {:induction false} RunsAgreeUpTo(pval: seq<real>, gammai: seq<real>, lam: real, alpha: real, w0: real,
                                         c0: int, a1: seq<real>, r1: seq<bool>, a2: seq<real>, r2: seq<bool>, k: int)
    requires IsSaffronRun(pval, gammai, lam, alpha, w0, c0, a1, r1)
    requires IsSaffronRun(pval, gammai, lam, alpha, w0, c0, a2, r2)
    requires |a1| == |a2| >= 1 && a1[0] == a2[0] && r1[0] == r2[0]
    requires 1 <= k <= |a1|
    ensures a1[..k] == a2[..k] && r1[..k] == r2[..k]
  {
    if k > 1 {
      var n := k - 1;
      RunsAgreeUpTo(pval, gammai, lam, alpha, w0, c0, a1, r1, a2, r2, n);
      RunAt(pval, gammai, lam, alpha, w0, c0, a1, r1, n);
      RunAt(pval, gammai, lam, alpha, w0, c0, a2, r2, n);
      SnocAgree(a1, a2, n);
      SnocAgree(r1, r2, n);
    }
  }

  /** Prefixes that agree, extended by equal entries, agree. */
  lemma SnocAgree<T>(s: seq<T>, t: seq<T>, n: int)
    requires 0 <= n < |s| && n < |t| && s[..n] == t[..n] && s[n] == t[n]
    ensures s[..n + 1] == t[..n + 1]
  {
    assert s[..n + 1] == s[..n] + [s[n]] && t[..n + 1] == t[..n] + [t[n]];
  }

  /** Entry k >= 1 of a run. */
  lemma RunAt(pval: seq<real>, gammai: seq<real>, lam: real, alpha: real, w0: real,
              c0: int, al: seq<real>, rs: seq<bool>, k: int)
    requires IsSaffronRun(pval, gammai, lam, alpha, w0, c0, al, rs) && 1 <= k < |al|
    ensures 0 <= BaseIndex(pval, lam, c0, k) < |gammai|
    ensures al[k] == SaffronAlpha(pval, gammai, lam, alpha, w0, c0, rs[..k]) && rs[k] == (pval[k] <= al[k])
  {
    var x := al[k];
  }

  /**
   * A saffron_rcpp_full run started from saffron_faster's entry 0 with no
   * candidate carried in produces exactly saffron_faster's outputs.
   */
  lemma FullAgreesWithFaster(pval: seq<real>, gammai: seq<real>, lam: real, alpha: real, w0: real,
                             alphai: seq<real>, R: seq<bool>, al: seq<real>, rs: seq<bool>)
    requires |pval| >= 1 && |alphai| == |pval| == |R| && |gammai| >= |pval|
    requires forall k {:trigger alphai[k]} :: 0 <= k < |pval| ==>
               alphai[k] == SaffronAlpha(pval, gammai, lam, alpha, w0, 0, R[..k]) && alphai[k] <= lam
    requires forall k {:trigger alphai[k]} :: 0 <= k < |pval| ==> R[k] == (pval[k] <= alphai[k])
    requires IsSaffronRun(pval, gammai, lam, alpha, w0, 0, al, rs) && |al| == |pval|
    requires al[0] == alphai[0] && rs[0] == R[0]
    ensures al == alphai && rs == R
  {
    FasterIsRun(pval, gammai, lam, alpha, w0, alphai, R);
    SaffronRunUnique(pval, gammai, lam, alpha, w0, 0, alphai, R, al, rs);
  }

  /** One more step of a run. */
  lemma RunExtend(pval: seq<real>, gammai: seq<real>, lam: real, alpha: real, w0: real,
                  c0: int, al: seq<real>, rs: seq<bool>, a: real, b: bool)
    requires IsSaffronRun(pval, gammai, lam, alpha, w0, c0, al, rs) && 1 <= |al| < |pval|
    requires 0 <= BaseIndex(pval, lam, c0, |rs|) < |gammai|
    requires a == SaffronAlpha(pval, gammai, lam, alpha, w0, c0, rs) && b == (pval[|rs|] <= a)
    ensures IsSaffronRun(pval, gammai, lam, alpha, w0, c0, al + [a], rs + [b])
  {
    assert a <= lam;
    forall k | 1 <= k < |al| + 1
      ensures 0 <= BaseIndex(pval, lam, c0, k) < |gammai|
      ensures (al + [a])[k] == SaffronAlpha(pval, gammai, lam, alpha, w0, c0, (rs + [b])[..k])
      ensures (al + [a])[k] <= lam && (rs + [b])[k] == (pval[k] <= (al + [a])[k])
    {
      PrefixOfSnocAt(al, a, rs, b, k);
    }
  }

  /** With only false entries from i on, sum(R) counts the rejections among the first i. */
  lemma {:induction false} CountTrueTail(s: seq<bool>, i: int)
    requires 0 <= i <= |s|
    requires forall k :: i <= k < |s| ==> !s[k]
    ensures CountTrue(s) == CountTrue(s[..i])
  {
    if |s| > i {
      CountTrueTail(s[..|s| - 1], i);
      assert s[..|s| - 1][..i] == s[..i];
    } else {
      assert s[..i] == s;
    }
  }

  /** The Kseq loop: the first n entries of Cjplus each grow by d. */
  method AddToFirst(Cjplus: array<int>, n: int, d: int)
    modifies Cjplus
    requires 0 <= n <= Cjplus.Length
    ensures forall m :: 0 <= m < Cjplus.Length ==> Cjplus[m] == old(Cjplus[m]) + (if m < n then d else 0)
  {
    var j := 0;
    while j < n
      invariant 0 <= j <= n
      invariant forall m :: 0 <= m < Cjplus.Length ==> Cjplus[m] == old(Cjplus[m]) + (if m < j then d else 0)
    {
      Cjplus[j] := Cjplus[j] + d;
      j := j + 1;
    }
  }

  /** gi = gammai[i - tau[j] - Cjplus[j] - 1] for j < n: the first n terms. */
  lemma GiTerms(pval: seq<real>, gammai: seq<real>, lam: real, cj: seq<int>, tau: seq<int>, n: int, i: int,
                terms: seq<real>)
    requires 0 <= n <= |tau| == |terms| && n <= |cj| && i <= |pval| <= |gammai|
    requires forall m :: 0 <= m < n ==> 0 <= tau[m] < i && cj[m] == CountLe(pval, tau[m] + 1, i, lam)
    requires forall m :: 0 <= m < |tau| ==> 0 <= tau[m] < i && terms[m] == gammai[SaffronIndex(pval, lam, i, tau[m])]
    ensures forall m :: 0 <= m < n ==> 0 <= i - tau[m] - cj[m] - 1 < |gammai| && gammai[i - tau[m] - cj[m] - 1] == terms[m]
  {
    forall m | 0 <= m < n
      ensures 0 <= i - tau[m] - cj[m] - 1 < |gammai| && gammai[i - tau[m] - cj[m] - 1] == terms[m]
    {
      TermIs(pval, gammai, lam, i, tau[m], cj[m], terms[m]);
    }
  }

  /** Adding cand[i-1] to the counts up to i-1 gives the counts up to i. */
  lemma IncrementedCounts(pval: seq<real>, lam: real, cand: seq<int>, cj: seq<int>, old_cj: seq<int>,
                          tau: seq<int>, n: int, i: int)
    requires 1 <= i <= |pval| && i <= |cand| && cand[i - 1] == B2I(pval[i - 1] <= lam)
    requires 0 <= n <= |tau| && n <= |cj| == |old_cj|
    requires forall m :: 0 <= m < n ==> 0 <= tau[m] && tau[m] + 1 <= i - 1 && old_cj[m] == CountLe(pval, tau[m] + 1, i - 1, lam)
    requires forall m :: 0 <= m < |cj| ==> cj[m] == old_cj[m] + (if m < n then cand[i - 1] else 0)
    ensures forall m :: 0 <= m < n ==> cj[m] == CountLe(pval, tau[m] + 1, i, lam)
  {
    forall m | 0 <= m < n
      ensures cj[m] == CountLe(pval, tau[m] + 1, i, lam)
    {
      CountLeSnoc(pval, tau[m] + 1, i - 1, lam);
    }
  }

  /**
   * The first part of the K > 1 branch of saffron_rcpp_full: Cjplus[j] +=
   * cand[i-1] for j < K-1 in place, then Cjplussum = sum(gi) over the
   * updated entries.
   */
  method RcppIncrement(pval: seq<real>, gammai: seq<real>, lam: real, cand: seq<int>,
                       Cjplus: array<int>, tau: seq<int>, K: int, i: int, ghost terms: seq<real>)
    returns (s: real)
    modifies Cjplus
    requires 1 <= i < |cand| <= |pval| <= |gammai| && cand[i - 1] == B2I(pval[i - 1] <= lam)
    requires 2 <= K == |tau| == |terms| <= Cjplus.Length
    requires forall m :: 0 <= m < K - 1 ==>
               0 <= tau[m] && tau[m] + 1 <= i - 1 && Cjplus[m] == CountLe(pval, tau[m] + 1, i - 1, lam)
    requires forall m :: 0 <= m < K ==> 0 <= tau[m] < i && terms[m] == gammai[SaffronIndex(pval, lam, i, tau[m])]
    ensures forall m :: 0 <= m < K - 1 ==> Cjplus[m] == CountLe(pval, tau[m] + 1, i, lam)
    ensures forall m :: K - 1 <= m < Cjplus.Length ==> Cjplus[m] == old(Cjplus[m])
    ensures s == Sum(terms[..K - 1])
  {
    ghost var before := Cjplus[..];
    AddToFirst(Cjplus, K - 1, cand[i - 1]);
    var cj := Cjplus[..];
    IncrementedCounts(pval, lam, cand, cj, before, tau, K - 1, i);
    GiTerms(pval, gammai, lam, cj, tau, K - 1, i, terms);
    var gi := seq(K - 1, j requires 0 <= j < K - 1 => gammai[i - tau[j] - cj[j] - 1]);
    assert gi == terms[..K - 1];
    s := Sum(gi);
  }

  /**
   * The rest of the K > 1 branch: Cjplus[K-1] recounted in place, Cjplussum
   * corrected from the first K-1 terms to the last K-1, then alphaitilde.
   */
  method RcppFinish(pval: seq<real>, gammai: seq<real>, lam: real, alpha: real, w0: real,
                    cand: seq<int>, candsum: int, Cjplus: array<int>, s: real, tau: seq<int>, K: int, i: int,
                    ghost terms: seq<real>)
    returns (tilde: real)
    modifies Cjplus
    requires 1 <= i < |cand| <= |pval| <= |gammai|
    requires CandWritten(pval, lam, cand, i) && 0 <= i - candsum < |gammai|
    requires 2 <= K == |tau| == |terms| <= Cjplus.Length && MaxOf(tau) == tau[K - 1]
    requires 0 <= tau[0] < i && 0 <= tau[K - 1] < i && Cjplus[0] == CountLe(pval, tau[0] + 1, i, lam)
    requires terms[0] == gammai[SaffronIndex(pval, lam, i, tau[0])]
    requires terms[K - 1] == gammai[SaffronIndex(pval, lam, i, tau[K - 1])]
    requires s == Sum(terms[..K - 1])
    ensures Cjplus[..] == old(Cjplus[..])[K - 1 := CountLe(pval, tau[K - 1] + 1, i, lam)]
    ensures tilde == Shrink(lam, LordRule(gammai[i - candsum], w0, alpha, terms))
  {
    RecountIsCount(pval, lam, cand, i, tau[K - 1] + 1);
    Cjplus[K - 1] := CandTotal(cand, tau[K - 1] + 1, MaxInt(i - 1, MaxOf(tau) + 1));
    var last := gammai[i - tau[K - 1] - Cjplus[K - 1] - 1];
    var first := gammai[i - tau[0] - Cjplus[0] - 1];
    TermIs(pval, gammai, lam, i, tau[K - 1], Cjplus[K - 1], terms[K - 1]);
    TermIs(pval, gammai, lam, i, tau[0], Cjplus[0], terms[0]);
    var s' := s + (last - first);
    SumSwapFirstForLast(terms, s, last, first);
    HighIsRule(gammai[i - candsum], w0, alpha, lam, terms, first, s');
    tilde := Shrink(lam, LordHigh(gammai[i - candsum], w0, alpha, first, s'));
  }

  /**
   * The K > 1 branch of saffron_rcpp_full on the rejection list tau and its
   * terms, updating Cjplus in place; returns alphaitilde.
   */
  method RcppMany(pval: seq<real>, gammai: seq<real>, lam: real, alpha: real, w0: real,
                  cand: seq<int>, candsum: int, Cjplus: array<int>, tau: seq<int>, K: int, i: int,
                  ghost terms: seq<real>)
    returns (tilde: real)
    modifies Cjplus
    requires 1 <= i < |cand| == Cjplus.Length <= |pval| <= |gammai|
    requires CandWritten(pval, lam, cand, i) && 0 <= i - candsum < |gammai|
    requires 2 <= K == |tau| == |terms| <= Cjplus.Length && MaxOf(tau) == tau[K - 1]
    requires forall m :: 0 <= m < K - 1 ==>
               0 <= tau[m] && tau[m] + 1 <= i - 1 && Cjplus[m] == CountLe(pval, tau[m] + 1, i - 1, lam)
    requires forall m :: 0 <= m < K ==> 0 <= tau[m] < i && terms[m] == gammai[SaffronIndex(pval, lam, i, tau[m])]
    ensures forall m :: 0 <= m < K ==> Cjplus[m] == CountLe(pval, tau[m] + 1, i, lam)
    ensures forall m :: K <= m < Cjplus.Length ==> Cjplus[m] == old(Cjplus[m])
    ensures tilde == Shrink(lam, LordRule(gammai[i - candsum], w0, alpha, terms))
  {
    var s := RcppIncrement(pval, gammai, lam, cand, Cjplus, tau, K, i, terms);
    ghost var cj := Cjplus[..];
    tilde := RcppFinish(pval, gammai, lam, alpha, w0, cand, candsum, Cjplus, s, tau, K, i, terms);
    SetLastCount(pval, lam, cj, tau, K, i, Cjplus[K - 1]);
    assert Cjplus[..] == cj[K - 1 := Cjplus[K - 1]];
  }

  /** The K == 1 branch of saffron_rcpp_full: Cjplus[0] recounted in place, then alphaitilde. */
  method RcppOne(pval: seq<real>, gammai: seq<real>, lam: real, alpha: real, w0: real,
                 cand: seq<int>, candsum: int, Cjplus: array<int>, tau: seq<int>, i: int,
                 ghost terms: seq<real>)
    returns (tilde: real)
    modifies Cjplus
    requires 1 <= i < |cand| == Cjplus.Length <= |pval| <= |gammai|
    requires CandWritten(pval, lam, cand, i) && 0 <= i - candsum < |gammai|
    requires |tau| == 1 == |terms| && 0 <= tau[0] < i
    requires terms[0] == gammai[SaffronIndex(pval, lam, i, tau[0])]
    ensures Cjplus[0] == CountLe(pval, tau[0] + 1, i, lam)
    ensures forall m :: 1 <= m < Cjplus.Length ==> Cjplus[m] == old(Cjplus[m])
    ensures tilde == Shrink(lam, LordRule(gammai[i - candsum], w0, alpha, terms))
  {
    RecountIsCount(pval, lam, cand, i, tau[0] + 1);
    Cjplus[0] := CandTotal(cand, tau[0] + 1, MaxInt(i - 1, MaxOf(tau) + 1));
    TermIs(pval, gammai, lam, i, tau[0], Cjplus[0], terms[0]);
    LordRuleCases(gammai[i - candsum], w0, alpha, terms);
    tilde := Shrink(lam, LordLow(gammai[i - candsum], w0, alpha, gammai[i - tau[0] - Cjplus[0] - 1]));
  }

  /** The K > 1 branch on the decision history R, capped at lambda. */
  method RStepMany(pval: seq<real>, gammai: seq<real>, lam: real, alpha: real, w0: real,
                   c0: int, cand: seq<int>, candsum: int, Cjplus: array<int>, tau: seq<int>, K: int, i: int,
                   ghost R: seq<bool>)
    returns (a: real)
    modifies Cjplus
    requires 1 <= i == |R| < |cand| == Cjplus.Length <= |pval| <= |gammai|
    requires CandWritten(pval, lam, cand, i) && candsum == c0 + CountLe(pval, 0, i, lam)
    requires 0 <= i - candsum < |gammai|
    requires K == CountTrue(R) >= 2 && tau == Rejected(R)
    requires CjplusCounts(pval, lam, Cjplus[..], Rejected(R[..i - 1]), i - 1)
    ensures CjplusCounts(pval, lam, Cjplus[..], Rejected(R), i)
    ensures forall m :: K <= m < Cjplus.Length ==> Cjplus[m] == old(Cjplus[m])
    ensures a == SaffronAlpha(pval, gammai, lam, alpha, w0, c0, R)
  {
    ghost var terms := SaffronTerms(pval, gammai, lam, i, R);
    LastRejection(R, K);
    OlderCounts(pval, lam, Cjplus[..], R, i, tau);
    TermsOfList(pval, gammai, lam, R, tau, terms);
    var tilde := RcppMany(pval, gammai, lam, alpha, w0, cand, candsum, Cjplus, tau, K, i, terms);
    CountsOfList(pval, lam, Cjplus[..], tau, i);
    CappedIsSaffron(pval, gammai, lam, alpha, w0, c0, R, candsum, tilde);
    a := Min(lam, tilde);
  }

  /** The K == 1 branch on the decision history R, capped at lambda. */
  method RStepOne(pval: seq<real>, gammai: seq<real>, lam: real, alpha: real, w0: real,
                  c0: int, cand: seq<int>, candsum: int, Cjplus: array<int>, tau: seq<int>, i: int,
                  ghost R: seq<bool>)
    returns (a: real)
    modifies Cjplus
    requires 1 <= i == |R| < |cand| == Cjplus.Length <= |pval| <= |gammai|
    requires CandWritten(pval, lam, cand, i) && candsum == c0 + CountLe(pval, 0, i, lam)
    requires 0 <= i - candsum < |gammai|
    requires CountTrue(R) == 1 && tau == Rejected(R)
    ensures CjplusCounts(pval, lam, Cjplus[..], Rejected(R), i)
    ensures forall m :: 1 <= m < Cjplus.Length ==> Cjplus[m] == old(Cjplus[m])
    ensures a == SaffronAlpha(pval, gammai, lam, alpha, w0, c0, R)
  {
    ghost var terms := SaffronTerms(pval, gammai, lam, i, R);
    TermsOfList(pval, gammai, lam, R, tau, terms);
    var tilde := RcppOne(pval, gammai, lam, alpha, w0, cand, candsum, Cjplus, tau, i, terms);
    CountsOfList(pval, lam, Cjplus[..], tau, i);
    CappedIsSaffron(pval, gammai, lam, alpha, w0, c0, R, candsum, tilde);
    a := Min(lam, tilde);
  }

  /** The K == 0 branch on the decision history R, capped at lambda. */
  method RStepNone(pval: seq<real>, gammai: seq<real>, lam: real, alpha: real, w0: real,
                   c0: int, candsum: int, i: int, ghost R: seq<bool>)
    returns (a: real)
    requires 1 <= i == |R| < |pval| <= |gammai|
    requires candsum == c0 + CountLe(pval, 0, i, lam) && 0 <= i - candsum < |gammai|
    requires CountTrue(R) == 0
    ensures a == SaffronAlpha(pval, gammai, lam, alpha, w0, c0, R)
  {
    var tilde := SaffronNone(pval, gammai, lam, alpha, w0, candsum, i);
    assert SaffronTerms(pval, gammai, lam, i, R) == [];
    CappedIsSaffron(pval, gammai, lam, alpha, w0, c0, R, candsum, tilde);
    a := Min(lam, tilde);
  }

  /** The tau update and the three branches of step i, capped at lambda. */
  method RcppThreshold(pval: seq<real>, gammai: seq<real>, lam: real, alpha: real, w0: real,
                       c0: int, cand: seq<int>, candsum: int, Cjplus: array<int>, tau: seq<int>, K: int, i: int,
                       last: bool, ghost R: seq<bool>)
    returns (tau': seq<int>, a: real)
    modifies Cjplus
    requires 1 <= i == |R| < |cand| == Cjplus.Length <= |pval| <= |gammai|
    requires CandWritten(pval, lam, cand, i) && candsum == c0 + CountLe(pval, 0, i, lam)
    requires 0 <= i - candsum < |gammai|
    requires K == CountTrue(R) && tau == TauOf(Rejected(R[..i - 1])) && last == R[i - 1]
    requires CjplusCounts(pval, lam, Cjplus[..], Rejected(R[..i - 1]), i - 1)
    ensures tau' == TauOf(Rejected(R))
    ensures CjplusCounts(pval, lam, Cjplus[..], Rejected(R), i)
    ensures forall m :: K <= m < Cjplus.Length ==> Cjplus[m] == old(Cjplus[m])
    ensures a == SaffronAlpha(pval, gammai, lam, alpha, w0, c0, R)
  {
    assert R == R[..i - 1] + [R[i - 1]];
    tau' := LordUpdateTau(tau, K, i, last, R[..i - 1]);
    if K > 1 {
      a := RStepMany(pval, gammai, lam, alpha, w0, c0, cand, candsum, Cjplus, tau', K, i, R);
    } else if K == 1 {
      a := RStepOne(pval, gammai, lam, alpha, w0, c0, cand, candsum, Cjplus, tau', i, R);
    } else {
      a := RStepNone(pval, gammai, lam, alpha, w0, c0, candsum, i, R);
    }
  }

  /** cand once positions below n hold the candidate flags, the rest as the caller supplied (init). */
  ghost predicate WrittenBelow(pval: seq<real>, lam: real, c: seq<int>, init: seq<int>, n: int)
  {
    |c| == |init| <= |pval| &&
    forall k :: 0 <= k < |c| ==> c[k] == (if k < n then B2I(pval[k] <= lam) else init[k])
  }

  /** Writing the flag of position n extends the written prefix by one. */
  lemma WrittenStep(pval: seq<real>, lam: real, c: seq<int>, init: seq<int>, n: int)
    requires WrittenBelow(pval, lam, c, init, n) && 0 <= n < |c|
    ensures WrittenBelow(pval, lam, c[n := B2I(pval[n] <= lam)], init, n + 1)
  {
  }

  /** When the caller's cand is zero from position 1 on, a written prefix of length i >= 1 is CandWritten. */
  lemma WrittenIsCand(pval: seq<real>, lam: real, c: seq<int>, init: seq<int>, i: int)
    requires WrittenBelow(pval, lam, c, init, i) && i >= 1
    requires forall k :: 1 <= k < |init| ==> init[k] == 0
    ensures CandWritten(pval, lam, c, i)
  {
  }

  /**
   * The run part of saffron_rcpp_full's state at the head of step i, on
   * snapshots A of alphai and Rs of R (a0, r0: the caller's): steps 1..i-1
   * follow the recurrence, entry 0 is untouched and R is still zero from i on.
   */
  ghost predicate RunState(pval: seq<real>, gammai: seq<real>, lam: real, alpha: real, w0: real, c0: int,
                           a0: seq<real>, r0: seq<bool>, A: seq<real>, Rs: seq<bool>, i: int)
  {
    1 <= i <= |A| && |A| == |Rs| == |a0| == |r0| &&
    IsSaffronRun(pval, gammai, lam, alpha, w0, c0, A[..i], Rs[..i]) &&
    A[0] == a0[0] && Rs[0] == r0[0] &&
    forall k :: i <= k < |Rs| ==> !Rs[k]
  }

  /** The candidate part: cand written below i-1 (init: the caller's cand) and candsum counting them. */
  ghost predicate CandState(pval: seq<real>, lam: real, c0: int, init: seq<int>, C: seq<int>, candsum: int, i: int)
  {
    1 <= i <= |C| && WrittenBelow(pval, lam, C, init, i - 1) &&
    candsum == c0 + CountLe(pval, 0, i - 1, lam)
  }

  /**
   * The rejection part: tau lists the rejections among the first i-1
   * decisions, J (Cjplus) holds their counts up to i-1 and is as the caller
   * supplied (J0) beyond them.
   */
  ghost predicate CountState(pval: seq<real>, lam: real, J0: seq<int>, Rs: seq<bool>, J: seq<int>,
                             tau: seq<int>, i: int)
  {
    1 <= i <= |Rs| <= |pval| && |J| == |J0| &&
    tau == TauOf(Rejected(Rs[..i - 1])) &&
    CjplusCounts(pval, lam, J, Rejected(Rs[..i - 1]), i - 1) &&
    forall m :: CountTrue(Rs[..i - 1]) <= m < |J| ==> J[m] == J0[m]
  }

  /** The state of saffron_rcpp_full at the head of step i. */
  ghost predicate RcppState(pval: seq<real>, gammai: seq<real>, lam: real, alpha: real, w0: real, c0: int,
                            init: seq<int>, J0: seq<int>, a0: seq<real>, r0: seq<bool>,
                            A: seq<real>, Rs: seq<bool>, C: seq<int>, J: seq<int>, candsum: int, tau: seq<int>, i: int)
  {
    |A| == |C| == |J| && |pval| <= |gammai| &&
    RunState(pval, gammai, lam, alpha, w0, c0, a0, r0, A, Rs, i) &&
    CandState(pval, lam, c0, init, C, candsum, i) &&
    CountState(pval, lam, J0, Rs, J, tau, i)
  }

  /** The state before step 1. */
  lemma RcppStateStart(pval: seq<real>, gammai: seq<real>, lam: real, alpha: real, w0: real, c0: int,
                       init: seq<int>, J0: seq<int>, a0: seq<real>, r0: seq<bool>)
    requires 1 <= |a0| == |r0| == |init| == |J0| <= |pval| <= |gammai|
    requires forall k :: 1 <= k < |r0| ==> !r0[k]
    ensures RcppState(pval, gammai, lam, alpha, w0, c0, init, J0, a0, r0, a0, r0, init, J0, c0, [0], 1)
  {
    assert r0[..0] == [];
    assert a0[..1] == [a0[0]] && r0[..1] == [r0[0]];
  }

  /** The state after the last step is what saffron_rcpp_full returns. */
  lemma RcppStateEnd(pval: seq<real>, gammai: seq<real>, lam: real, alpha: real, w0: real, c0: int,
                     init: seq<int>, J0: seq<int>, a0: seq<real>, r0: seq<bool>,
                     A: seq<real>, Rs: seq<bool>, C: seq<int>, J: seq<int>, candsum: int, tau: seq<int>)
    requires RcppState(pval, gammai, lam, alpha, w0, c0, init, J0, a0, r0, A, Rs, C, J, candsum, tau, |A|)
    ensures IsSaffronRun(pval, gammai, lam, alpha, w0, c0, A, Rs)
    ensures candsum == c0 + CountLe(pval, 0, |A| - 1, lam)
    ensures forall k :: 0 <= k < |C| ==> C[k] == (if k < |A| - 1 then B2I(pval[k] <= lam) else init[k])
    ensures tau == TauOf(Rejected(Rs[..|A| - 1]))
    ensures CjplusCounts(pval, lam, J, Rejected(Rs[..|A| - 1]), |A| - 1)
    ensures forall m :: CountTrue(Rs[..|A| - 1]) <= m < |J| ==> J[m] == J0[m]
  {
    assert A[..|A|] == A && Rs[..|Rs|] == Rs;
  }

  /** The run part after step i writes alphai[i] = a and R[i]. */
  lemma RunStateStep(pval: seq<real>, gammai: seq<real>, lam: real, alpha: real, w0: real, c0: int,
                     a0: seq<real>, r0: seq<bool>, A: seq<real>, Rs: seq<bool>, i: int, a: real)
    requires RunState(pval, gammai, lam, alpha, w0, c0, a0, r0, A, Rs, i) && i < |A| < |pval| + 1
    requires 0 <= BaseIndex(pval, lam, c0, i) < |gammai|
    requires a == SaffronAlpha(pval, gammai, lam, alpha, w0, c0, Rs[..i])
    ensures RunState(pval, gammai, lam, alpha, w0, c0, a0, r0, A[i := a], Rs[i := pval[i] <= a], i + 1)
  {
    var b := pval[i] <= a;
    UpdateTake(A, i, a);
    UpdateTake(Rs, i, b);
    RunExtend(pval, gammai, lam, alpha, w0, c0, A[..i], Rs[..i], a, b);
  }

  /** The candidate part after step i writes cand[i-1]. */
  lemma CandStateStep(pval: seq<real>, lam: real, c0: int, init: seq<int>, C: seq<int>, candsum: int, i: int,
                      C': seq<int>, candsum': int)
    requires CandState(pval, lam, c0, init, C, candsum, i) && i < |C|
    requires C' == C[i - 1 := B2I(pval[i - 1] <= lam)] && candsum' == c0 + CountLe(pval, 0, i, lam)
    ensures CandState(pval, lam, c0, init, C', candsum', i + 1)
  {
    WrittenStep(pval, lam, C, init, i - 1);
  }

  /** The rejection part after step i, with R[i] set to b. */
  lemma CountStateStep(pval: seq<real>, lam: real, J0: seq<int>, Rs: seq<bool>, J: seq<int>, tau: seq<int>, i: int,
                       J': seq<int>, tau': seq<int>, b: bool)
    requires CountState(pval, lam, J0, Rs, J, tau, i) && i < |Rs|
    requires tau' == TauOf(Rejected(Rs[..i]))
    requires |J'| == |J| && CjplusCounts(pval, lam, J', Rejected(Rs[..i]), i)
    requires forall m :: CountTrue(Rs[..i]) <= m < |J| ==> J'[m] == J[m]
    ensures CountState(pval, lam, J0, Rs[i := b], J', tau', i + 1)
  {
    UpdateTake(Rs, i, b);
    CountTrueGrows(Rs, i);
  }

  /**
   * Step i >= 1 of saffron_rcpp_full up to the capped threshold: K = sum(R),
   * cand[i-1] and candsum, then tau, Cjplus and alphai[i]. Rs, C and J are
   * the contents of R, cand and Cjplus on entry.
   */
  method RcppStep(pval: seq<real>, gammai: seq<real>, lam: real, alpha: real, w0: real,
                  c0: int, cand: array<int>, candsum: int, Cjplus: array<int>, tau: seq<int>, R: array<bool>,
                  i: int, ghost init: seq<int>, ghost Rs: seq<bool>, ghost C: seq<int>, ghost J: seq<int>)
    returns (candsum': int, tau': seq<int>, a: real)
    modifies cand, Cjplus
    requires R[..] == Rs && cand[..] == C && Cjplus[..] == J && cand != Cjplus
    requires 1 <= i < |Rs| == |C| == |J| <= |pval| <= |gammai|
    requires forall k :: i <= k < |Rs| ==> !Rs[k]
    requires WrittenBelow(pval, lam, C, init, i - 1) && forall k :: 1 <= k < |init| ==> init[k] == 0
    requires candsum == c0 + CountLe(pval, 0, i - 1, lam) && 0 <= BaseIndex(pval, lam, c0, i) < |gammai|
    requires tau == TauOf(Rejected(Rs[..i - 1]))
    requires CjplusCounts(pval, lam, J, Rejected(Rs[..i - 1]), i - 1)
    ensures cand[..] == C[i - 1 := B2I(pval[i - 1] <= lam)]
    ensures candsum' == c0 + CountLe(pval, 0, i, lam)
    ensures tau' == TauOf(Rejected(Rs[..i]))
    ensures CjplusCounts(pval, lam, Cjplus[..], Rejected(Rs[..i]), i)
    ensures forall m :: CountTrue(Rs[..i]) <= m < |J| ==> Cjplus[m] == J[m]
    ensures a == SaffronAlpha(pval, gammai, lam, alpha, w0, c0, Rs[..i])
  {
    ghost var rs := Rs[..i];
    assert rs[..i - 1] == Rs[..i - 1];
    CountTrueTail(Rs, i);
    var K := CountTrue(R[..]);
    WrittenStep(pval, lam, C, init, i - 1);
    cand[i - 1] := B2I(pval[i - 1] <= lam);
    CountLeSnoc(pval, 0, i - 1, lam);
    candsum' := candsum + cand[i - 1];
    WrittenIsCand(pval, lam, cand[..], init, i);
    tau', a := RcppThreshold(pval, gammai, lam, alpha, w0, c0, cand[..], candsum', Cjplus, tau, K, i, R[i - 1], rs);
  }

  /** A whole step i of saffron_rcpp_full: the state at the head of step i + 1. */
  method RcppFullStep(pval: seq<real>, gammai: seq<real>, lam: real, alpha: real, w0: real, c0: int,
                      Cjplus: array<int>, cand: array<int>, alphai: array<real>, R: array<bool>,
                      candsum: int, tau: seq<int>, i: int,
                      ghost init: seq<int>, ghost J0: seq<int>, ghost a0: seq<real>, ghost r0: seq<bool>)
    returns (candsum': int, tau': seq<int>)
    modifies Cjplus, cand, alphai, R
    requires cand != Cjplus && i < R.Length && forall k :: 1 <= k < |init| ==> init[k] == 0
    requires RcppState(pval, gammai, lam, alpha, w0, c0, init, J0, a0, r0,
                       alphai[..], R[..], cand[..], Cjplus[..], candsum, tau, i)
    requires 0 <= BaseIndex(pval, lam, c0, i) < |gammai|
    ensures RcppState(pval, gammai, lam, alpha, w0, c0, init, J0, a0, r0,
                      alphai[..], R[..], cand[..], Cjplus[..], candsum', tau', i + 1)
  {
    ghost var A, Rs, C, J := alphai[..], R[..], cand[..], Cjplus[..];
    var a;
    candsum', tau', a := RcppStep(pval, gammai, lam, alpha, w0, c0, cand, candsum, Cjplus, tau, R, i, init, Rs, C, J);
    RunStateStep(pval, gammai, lam, alpha, w0, c0, a0, r0, A, Rs, i, a);
    CandStateStep(pval, lam, c0, init, C, candsum, i, cand[..], candsum');
    CountStateStep(pval, lam, J0, Rs, J, tau, i, Cjplus[..], tau', pval[i] <= a);
    alphai[i] := a;
    R[i] := pval[i] <= alphai[i];
  }

  /** The loop of saffron_rcpp_full: steps 1..N-1 from the state before step 1. */
  method RcppSteps(pval: seq<real>, gammai: seq<real>, lam: real, alpha: real, w0: real, c0: int,
                   Cjplus: array<int>, cand: array<int>, alphai: array<real>, R: array<bool>,
                   ghost init: seq<int>, ghost J0: seq<int>, ghost a0: seq<real>, ghost r0: seq<bool>)
    returns (candsum: int, tau: seq<int>)
    modifies Cjplus, cand, alphai, R
    requires cand != Cjplus && forall k :: 1 <= k < |init| ==> init[k] == 0
    requires RcppState(pval, gammai, lam, alpha, w0, c0, init, J0, a0, r0,
                       alphai[..], R[..], cand[..], Cjplus[..], c0, [0], 1)
    requires forall k :: 1 <= k < R.Length ==> 0 <= BaseIndex(pval, lam, c0, k) < |gammai|
    ensures RcppState(pval, gammai, lam, alpha, w0, c0, init, J0, a0, r0,
                      alphai[..], R[..], cand[..], Cjplus[..], candsum, tau, R.Length)
  {
    candsum, tau := c0, [0];
    var i := 1;
    while i < R.Length
      invariant RcppState(pval, gammai, lam, alpha, w0, c0, init, J0, a0, r0,
                          alphai[..], R[..], cand[..], Cjplus[..], candsum, tau, i)
    {
      candsum, tau := RcppFullStep(pval, gammai, lam, alpha, w0, c0, Cjplus, cand, alphai, R,
                                   candsum, tau, i, init, J0, a0, r0);
      i := i + 1;
    }
  }

  /** Updating entry i leaves the first i entries alone and ends the first i + 1 with the new value. */
  lemma UpdateTake<T>(s: seq<T>, i: int, x: T)
    requires 0 <= i < |s|
    ensures s[i := x][..i] == s[..i] && s[i := x][..i + 1] == s[..i] + [x]
  {
  }

  /** The count of rejections never shrinks as the prefix grows. */
  lemma CountTrueGrows(rs: seq<bool>, i: int)
    requires 1 <= i <= |rs|
    ensures CountTrue(rs[..i - 1]) <= CountTrue(rs[..i])
  {
    assert rs[..i][..i - 1] == rs[..i - 1];
  }

  /**
   * saffron_rcpp_full: steps 1..N-1 of a SAFFRON run on the caller's
   * vectors, which it updates in place. The caller supplies every vector with
   * N entries, R and cand zero from position 1 on, and a carried-in
   * candidate count c0 that keeps every w0 index i - candsum inside gammai.
   * Returns the final candidate count and the rejection list tau.
   */
  method SaffronRcppFull(N: int, lam: real, w0: real, alpha: real, c0: int, gammai: seq<real>,
                         Cjplus: array<int>, cand: array<int>, pval: seq<real>, alphai: array<real>,
                         R: array<bool>)
    returns (candsum: int, tau: seq<int>)
    modifies Cjplus, cand, alphai, R
    requires Cjplus.Length == N && cand.Length == N && alphai.Length == N && R.Length == N
    requires N <= |pval| <= |gammai| && cand != Cjplus
    requires forall k :: 1 <= k < N ==> !R[k] && cand[k] == 0
    requires forall k :: 1 <= k < N ==> 0 <= BaseIndex(pval, lam, c0, k) < |gammai|
    ensures N >= 1 ==> alphai[0] == old(alphai[0]) && R[0] == old(R[0])
    ensures IsSaffronRun(pval, gammai, lam, alpha, w0, c0, alphai[..], R[..])
    ensures candsum == c0 + CountLe(pval, 0, MaxInt(N - 1, 0), lam)
    ensures forall k :: 0 <= k < N ==> cand[k] == (if k < N - 1 then B2I(pval[k] <= lam) else old(cand[k]))
    ensures tau == TauOf(Rejected(R[..MaxInt(N - 1, 0)]))
    ensures CjplusCounts(pval, lam, Cjplus[..], Rejected(R[..MaxInt(N - 1, 0)]), MaxInt(N - 1, 0))
    ensures forall m :: CountTrue(R[..MaxInt(N - 1, 0)]) <= m < N ==> Cjplus[m] == old(Cjplus[m])
  {
    candsum := c0;
    tau := [0];
    if N == 0 {
      assert R[..] == [] && alphai[..] == [];
      return;
    }
    ghost var init, J0, a0, r0 := cand[..], Cjplus[..], alphai[..], R[..];
    RcppStateStart(pval, gammai, lam, alpha, w0, c0, init, J0, a0, r0);
    candsum, tau := RcppSteps(pval, gammai, lam, alpha, w0, c0, Cjplus, cand, alphai, R, init, J0, a0, r0);
    RcppStateEnd(pval, gammai, lam, alpha, w0, c0, init, J0, a0, r0, alphai[..], R[..], cand[..], Cjplus[..], candsum, tau);
  }
}
