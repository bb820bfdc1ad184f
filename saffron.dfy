/*
 * SAFFRON (Serial estimate of the Alpha Fraction that is Futilely Rationed
 * On true Null hypotheses), saffron_faster: a LORD-style threshold in which
 * the discount of each rejection skips the "candidates" (p-values at most
 * lambda) seen since it, scaled by (1 - lambda) and capped at lambda.
 *
 * The parameter lam is the source's lambda.
 */
module Saffron {
  import opened Common
  import opened Lord

  // ---------------------------------------------------------------------
  // The recurrence, stated on decision histories.

  /**
   * Position in gammai of the term of a rejection at t, at step i: the
   * number of steps since t that were not candidates, minus one.
   */
  function SaffronIndex(pval: seq<real>, lam: real, i: int, t: nat): (k: int)
    requires t < i <= |pval|
    ensures 0 <= k < i - t
  {
    i - t - CountLe(pval, t + 1, i, lam) - 1
  }

  /** The discount values of the rejections among rs at step i, in rejection order. */
  function SaffronTerms(pval: seq<real>, gammai: seq<real>, lam: real, i: int, rs: seq<bool>): (r: seq<real>)
    requires |rs| <= i <= |pval| && i <= |gammai|
    ensures |r| == CountTrue(rs)
  {
    var ts := Rejected(rs);
    seq(|ts|, j requires 0 <= j < |ts| => gammai[SaffronIndex(pval, lam, i, ts[j])])
  }

  /** The j-th term belongs to the j-th rejection. */
  lemma SaffronTermsAt(pval: seq<real>, gammai: seq<real>, lam: real, i: int, rs: seq<bool>)
    requires |rs| <= i <= |pval| && i <= |gammai|
    ensures forall j :: 0 <= j < CountTrue(rs) ==>
              SaffronTerms(pval, gammai, lam, i, rs)[j] ==
              gammai[SaffronIndex(pval, lam, i, Rejected(rs)[j])]
  {
  }

  /**
   * The index of the w0 term at step i = |rs|: i minus the number of
   * candidates, where c0 candidates were already counted before step 1.
   */
  function BaseIndex(pval: seq<real>, lam: real, c0: int, i: int): int
    requires 0 <= i <= |pval|
  {
    i - c0 - CountLe(pval, 0, i, lam)
  }

  /** x scaled by (1 - lambda). */
  function Shrink(lam: real, x: real): real
  {
    (1.0 - lam) * x
  }

  /** The uncapped SAFFRON threshold (alphaitilde) at step i = |rs|. */
  function SaffronTilde(pval: seq<real>, gammai: seq<real>, lam: real, alpha: real, w0: real,
                        c0: int, rs: seq<bool>): real
    requires |rs| <= |pval| && |rs| <= |gammai|
    requires 0 <= BaseIndex(pval, lam, c0, |rs|) < |gammai|
  {
    Shrink(lam, LordRule(gammai[BaseIndex(pval, lam, c0, |rs|)], w0, alpha,
                            SaffronTerms(pval, gammai, lam, |rs|, rs)))
  }

  /**
   * The SAFFRON threshold at step i = |rs| given the decisions rs on steps
   * 0..i-1: alphaitilde capped at lambda. c0 is the candidate count carried
   * in by the caller (0 for saffron_faster).
   */
  function SaffronAlpha(pval: seq<real>, gammai: seq<real>, lam: real, alpha: real, w0: real,
                        c0: int, rs: seq<bool>): real
    requires |rs| <= |pval| && |rs| <= |gammai|
    requires 0 <= BaseIndex(pval, lam, c0, |rs|) < |gammai|
  {
    Min(lam, SaffronTilde(pval, gammai, lam, alpha, w0, c0, rs))
  }

  // ---------------------------------------------------------------------
  // The bookkeeping of the loop.

  /** cand as the source holds it once positions below n have been written. */
  ghost predicate CandWritten(pval: seq<real>, lam: real, cand: seq<int>, n: int)
  {
    |cand| <= |pval| &&
    forall k :: 0 <= k < |cand| ==> cand[k] == (if k < n then B2I(pval[k] <= lam) else 0)
  }

  /** Each tracked rejection ts[j] has Cjplus[j] = the number of candidates in (ts[j], hi). */
  ghost predicate CjplusCounts(pval: seq<real>, lam: real, Cjplus: seq<int>, ts: seq<nat>, hi: int)
    requires 0 <= hi <= |pval|
  {
    |ts| <= |Cjplus| &&
    forall j :: 0 <= j < |ts| ==> Cjplus[j] == CountLe(pval, ts[j] + 1, hi, lam)
  }

  /** sum(cand[seq(lo, hi)]): cand summed over lo..hi inclusive. */
  function CandTotal(cand: seq<int>, lo: int, hi: int): int
    requires 0 <= lo && hi < |cand|
    decreases hi - lo
  {
    if hi < lo then 0 else CandTotal(cand, lo, hi - 1) + cand[hi]
  }

  /** Summing the written cand entries counts the candidates among the first n p-values. */
  lemma {:induction false} CandTotalCounts(pval: seq<real>, lam: real, cand: seq<int>, n: int, lo: int, hi: int)
    requires CandWritten(pval, lam, cand, n)
    requires 0 <= lo && hi < |cand|
    ensures CandTotal(cand, lo, hi) == CountLe(pval, lo, MinInt(hi + 1, n), lam)
    decreases hi - lo
  {
    if hi >= lo {
      CandTotalCounts(pval, lam, cand, n, lo, hi - 1);
      if hi < n {
        CountLeSnoc(pval, lo, hi, lam);
      }
    }
  }

  /** The recount lo..max(i-1, lo) at step i is the candidate count in [lo, i). */
  lemma RecountIsCount(pval: seq<real>, lam: real, cand: seq<int>, i: int, lo: int)
    requires CandWritten(pval, lam, cand, i)
    requires 0 <= lo <= i < |cand|
    ensures CandTotal(cand, lo, MaxInt(i - 1, lo)) == CountLe(pval, lo, i, lam)
  {
    CandTotalCounts(pval, lam, cand, i, lo, MaxInt(i - 1, lo));
  }

  /** The recount loop: Cjplus[K-1] = 0, then += cand[j] for j in low..high. */
  method Recount(cand: seq<int>, low: int, high: int) returns (c: int)
    requires 0 <= low <= high + 1 && high < |cand|
    ensures c == CandTotal(cand, low, high)
  {
    c := 0;
    var j := low;
    while j <= high
      invariant low <= j <= high + 1
      invariant c == CandTotal(cand, low, j - 1)
    {
      c := c + cand[j];
      j := j + 1;
    }
  }

  /** Sum(t[..n-1]) + (t[n-1] - t[0]) is the sum of every term but the first. */
  lemma SumSwapFirstForLast(t: seq<real>, s: real, last: real, first: real)
    requires |t| >= 1 && s == Sum(t[..|t| - 1]) && last == t[|t| - 1] && first == t[0]
    ensures s + (last - first) == Sum(t[1..])
  {
    SumSnoc(t, |t| - 1);
    assert t[..|t|] == t;
    SumFirst(t);
  }

  /** a * b * c == a * (b * c). */
  lemma MulAssoc(a: real, b: real, c: real)
    ensures a * b * c == a * (b * c)
  {
  }

  /**
   * The first loop of the K > 1 branch: for j < K-1, Cjplus[j] += cand[i-1],
   * and Cjplussum accumulates gammai[i - tau[j] - Cjplus[j] - 1]. terms[m] is
   * the term of the rejection tau[m] at step i.
   */
  method IncrementCjplus(pval: seq<real>, gammai: seq<real>, lam: real, cand: seq<int>,
                         Cjplus: seq<int>, tau: seq<int>, K: int, i: int, ghost terms: seq<real>)
    returns (cj: seq<int>, s: real)
    requires 1 <= i < |cand| <= |pval| <= |gammai|
    requires cand[i - 1] == B2I(pval[i - 1] <= lam)
    requires 2 <= K == |tau| == |terms| <= |Cjplus|
    requires forall m :: 0 <= m < K - 1 ==>
               0 <= tau[m] && tau[m] + 1 <= i - 1 && Cjplus[m] == CountLe(pval, tau[m] + 1, i - 1, lam)
    requires forall m :: 0 <= m < K ==> 0 <= tau[m] < i && terms[m] == gammai[SaffronIndex(pval, lam, i, tau[m])]
    ensures |cj| == |Cjplus|
    ensures forall m :: 0 <= m < K - 1 ==> cj[m] == CountLe(pval, tau[m] + 1, i, lam)
    ensures s == Sum(terms[..K - 1])
  {
    cj := Cjplus;
    s := 0.0;
    var j := 0;
    while j < K - 1
      invariant 0 <= j <= K - 1 && |cj| == |Cjplus|
      invariant forall m :: 0 <= m < j ==> cj[m] == CountLe(pval, tau[m] + 1, i, lam)
      invariant forall m :: j <= m < |cj| ==> cj[m] == Cjplus[m]
      invariant s == Sum(terms[..j])
    {
      CountLeSnoc(pval, tau[j] + 1, i - 1, lam);
      cj := cj[j := cj[j] + cand[i - 1]];
      SumSnoc(terms, j);
      s := s + gammai[i - tau[j] - cj[j] - 1];
      j := j + 1;
    }
  }

  /**
   * The K > 1 branch, after the tau update, on the rejection list tau and
   * its terms: returns the new Cjplus and alphaitilde.
   */
  method SaffronMany(pval: seq<real>, gammai: seq<real>, lam: real, alpha: real, w0: real,
                     cand: seq<int>, candsum: int, Cjplus: seq<int>, tau: seq<int>, K: int, i: int,
                     ghost terms: seq<real>)
    returns (Cjplus': seq<int>, tilde: real)
    requires 1 <= i < |cand| <= |pval| <= |gammai|
    requires CandWritten(pval, lam, cand, i) && candsum == CountLe(pval, 0, i, lam)
    requires 2 <= K == |tau| == |terms| <= |Cjplus| && MaxOf(tau) == tau[K - 1]
    requires forall m :: 0 <= m < K - 1 ==>
               0 <= tau[m] && tau[m] + 1 <= i - 1 && Cjplus[m] == CountLe(pval, tau[m] + 1, i - 1, lam)
    requires forall m :: 0 <= m < K ==> 0 <= tau[m] < i && terms[m] == gammai[SaffronIndex(pval, lam, i, tau[m])]
    ensures |Cjplus'| == |Cjplus|
    ensures forall m :: 0 <= m < K ==> Cjplus'[m] == CountLe(pval, tau[m] + 1, i, lam)
    ensures tilde == Shrink(lam, LordRule(gammai[i - candsum], w0, alpha, terms))
  {
    var cj, s := IncrementCjplus(pval, gammai, lam, cand, Cjplus, tau, K, i, terms);
    Cjplus', tilde := FinishMany(pval, gammai, lam, alpha, w0, cand, candsum, cj, s, tau, K, i, terms);
    SetLastCount(pval, lam, cj, tau, K, i, Cjplus'[K - 1]);
  }

  /**
   * The rest of the K > 1 branch: Cjplus[K-1] recounted, Cjplussum corrected
   * from the first K-1 terms to the last K-1, then alphaitilde.
   */
  method FinishMany(pval: seq<real>, gammai: seq<real>, lam: real, alpha: real, w0: real,
                    cand: seq<int>, candsum: int, cj: seq<int>, s: real, tau: seq<int>, K: int, i: int,
                    ghost terms: seq<real>)
    returns (Cjplus': seq<int>, tilde: real)
    requires 1 <= i < |cand| <= |pval| <= |gammai|
    requires CandWritten(pval, lam, cand, i) && candsum == CountLe(pval, 0, i, lam)
    requires 2 <= K == |tau| == |terms| <= |cj| && MaxOf(tau) == tau[K - 1]
    requires 0 <= tau[0] < i && 0 <= tau[K - 1] < i && cj[0] == CountLe(pval, tau[0] + 1, i, lam)
    requires terms[0] == gammai[SaffronIndex(pval, lam, i, tau[0])]
    requires terms[K - 1] == gammai[SaffronIndex(pval, lam, i, tau[K - 1])]
    requires s == Sum(terms[..K - 1])
    ensures Cjplus' == cj[K - 1 := CountLe(pval, tau[K - 1] + 1, i, lam)]
    ensures tilde == Shrink(lam, LordRule(gammai[i - candsum], w0, alpha, terms))
  {
    var low := tau[K - 1] + 1;
    var high := MaxInt(i - 1, MaxOf(tau) + 1);
    var c := Recount(cand, low, high);
    RecountIsCount(pval, lam, cand, i, low);
    Cjplus' := cj[K - 1 := c];
    var last := gammai[i - tau[K - 1] - Cjplus'[K - 1] - 1];
    var first := gammai[i - tau[0] - Cjplus'[0] - 1];
    TermIs(pval, gammai, lam, i, tau[K - 1], Cjplus'[K - 1], terms[K - 1]);
    TermIs(pval, gammai, lam, i, tau[0], Cjplus'[0], terms[0]);
    var s' := s + (last - first);
    SumSwapFirstForLast(terms, s, last, first);
    HighIsRule(gammai[i - candsum], w0, alpha, lam, terms, first, s');
    tilde := Shrink(lam, LordHigh(gammai[i - candsum], w0, alpha, first, s'));
  }

  /** Setting the newest entry to its count completes the counts of step i. */
  lemma SetLastCount(pval: seq<real>, lam: real, cj: seq<int>, tau: seq<int>, K: int, i: int, c: int)
    requires 0 <= i <= |pval| && 1 <= K == |tau| <= |cj|
    requires forall m :: 0 <= m < K ==> 0 <= tau[m]
    requires forall m :: 0 <= m < K - 1 ==> cj[m] == CountLe(pval, tau[m] + 1, i, lam)
    requires c == CountLe(pval, tau[K - 1] + 1, i, lam)
    ensures forall m :: 0 <= m < K ==> cj[K - 1 := c][m] == CountLe(pval, tau[m] + 1, i, lam)
  {
  }

  /** gammai[i - t - c - 1] is the term of the rejection t when c counts the candidates since t. */
  lemma TermIs(pval: seq<real>, gammai: seq<real>, lam: real, i: int, t: int, c: int, term: real)
    requires 0 <= t < i <= |pval| <= |gammai|
    requires c == CountLe(pval, t + 1, i, lam) && term == gammai[SaffronIndex(pval, lam, i, t)]
    ensures 0 <= i - t - c - 1 < |gammai| && gammai[i - t - c - 1] == term
  {
  }

  /** With two or more terms, the K > 1 expression of the source is the LORD rule. */
  lemma HighIsRule(g: real, w0: real, alpha: real, lam: real, terms: seq<real>, first: real, rest: real)
    requires |terms| >= 2 && first == terms[0] && rest == Sum(terms[1..])
    ensures LordHigh(g, w0, alpha, first, rest) == LordRule(g, w0, alpha, terms)
  {
    LordRuleCases(g, w0, alpha, terms);
  }

  /**
   * Every rejection but the newest lies below i-1 and carries the count
   * Cjplus held for it at step i-1.
   */
  lemma OlderCounts(pval: seq<real>, lam: real, Cjplus: seq<int>, R: seq<bool>, i: int, tau: seq<int>)
    requires 1 <= i == |R| <= |pval| && tau == Rejected(R)
    requires CjplusCounts(pval, lam, Cjplus, Rejected(R[..i - 1]), i - 1)
    ensures forall m :: 0 <= m < |tau| - 1 ==>
              0 <= tau[m] && tau[m] + 1 <= i - 1 && Cjplus[m] == CountLe(pval, tau[m] + 1, i - 1, lam)
  {
    forall m | 0 <= m < |tau| - 1
      ensures 0 <= tau[m] && tau[m] + 1 <= i - 1
      ensures Cjplus[m] == CountLe(pval, tau[m] + 1, i - 1, lam)
    {
      OlderRejection(R, i, CountTrue(R), m);
    }
  }

  /** The terms of the rejection list tau = Rejected(R) at step i = |R|, entry by entry. */
  lemma TermsOfList(pval: seq<real>, gammai: seq<real>, lam: real, R: seq<bool>, tau: seq<int>, terms: seq<real>)
    requires |R| <= |pval| <= |gammai| && tau == Rejected(R) && terms == SaffronTerms(pval, gammai, lam, |R|, R)
    ensures |terms| == |tau|
    ensures forall m :: 0 <= m < |tau| ==> 0 <= tau[m] < |R| && terms[m] == gammai[SaffronIndex(pval, lam, |R|, tau[m])]
  {
    SaffronTermsAt(pval, gammai, lam, |R|, R);
  }

  /** The capped rule on the terms of R, with the w0 term at i - candsum, is the SAFFRON threshold. */
  lemma CappedIsSaffron(pval: seq<real>, gammai: seq<real>, lam: real, alpha: real, w0: real,
                        c0: int, R: seq<bool>, candsum: int, tilde: real)
    requires |R| <= |pval| <= |gammai| && candsum == c0 + CountLe(pval, 0, |R|, lam)
    requires 0 <= |R| - candsum < |gammai|
    requires tilde == Shrink(lam, LordRule(gammai[|R| - candsum], w0, alpha, SaffronTerms(pval, gammai, lam, |R|, R)))
    ensures Min(lam, tilde) == SaffronAlpha(pval, gammai, lam, alpha, w0, c0, R)
  {
    assert BaseIndex(pval, lam, c0, |R|) == |R| - candsum;
    assert SaffronTilde(pval, gammai, lam, alpha, w0, c0, R) == tilde;
  }

  /** The newest rejection is the largest entry of the list, and lies below |R|. */
  lemma LastRejection(R: seq<bool>, K: int)
    requires K == CountTrue(R) >= 1
    ensures MaxOf(Rejected(R)) == Rejected(R)[K - 1] < |R|
  {
    RejectedExactly(R);
  }

  /**
   * Each rejection but the newest was already listed before step i-1's
   * decision, and lies below i - 1.
   */
  lemma OlderRejection(R: seq<bool>, i: int, K: int, j: int)
    requires 1 <= i == |R| && K == CountTrue(R) && 0 <= j < K - 1
    ensures j < |Rejected(R[..i - 1])| && Rejected(R)[j] == Rejected(R[..i - 1])[j]
    ensures Rejected(R)[j] + 1 <= i - 1
  {
    assert R == R[..i - 1] + [R[i - 1]];
    RejectedSnoc(R[..i - 1], R[i - 1]);
    RejectedExactly(R);
    assert Rejected(R)[j] < Rejected(R)[K - 1] < i;
  }

  /** The K == 1 branch, after the tau update: Cjplus[0] recounted, then alphaitilde. */
  method SaffronOne(pval: seq<real>, gammai: seq<real>, lam: real, alpha: real, w0: real,
                    cand: seq<int>, candsum: int, Cjplus: seq<int>, tau: seq<int>, i: int,
                    ghost terms: seq<real>)
    returns (Cjplus': seq<int>, tilde: real)
    requires 1 <= i < |cand| <= |pval| <= |gammai| && 1 <= |Cjplus|
    requires CandWritten(pval, lam, cand, i) && candsum == CountLe(pval, 0, i, lam)
    requires |tau| == 1 == |terms| && 0 <= tau[0] < i
    requires terms[0] == gammai[SaffronIndex(pval, lam, i, tau[0])]
    ensures |Cjplus'| == |Cjplus| && Cjplus'[0] == CountLe(pval, tau[0] + 1, i, lam)
    ensures tilde == Shrink(lam, LordRule(gammai[i - candsum], w0, alpha, terms))
  {
    RecountIsCount(pval, lam, cand, i, tau[0] + 1);
    Cjplus' := Cjplus[0 := CandTotal(cand, tau[0] + 1, MaxInt(i - 1, tau[0] + 1))];
    TermIs(pval, gammai, lam, i, tau[0], Cjplus'[0], terms[0]);
    LordRuleCases(gammai[i - candsum], w0, alpha, terms);
    tilde := Shrink(lam, LordLow(gammai[i - candsum], w0, alpha, gammai[i - tau[0] - Cjplus'[0] - 1]));
  }

  /** The K == 0 branch: (1 - lambda) * w0 * gammai[i - candsum]. */
  method SaffronNone(pval: seq<real>, gammai: seq<real>, lam: real, alpha: real, w0: real,
                     candsum: int, i: int)
    returns (tilde: real)
    requires 1 <= i < |pval| <= |gammai| && 0 <= i - candsum < |gammai|
    ensures tilde == Shrink(lam, LordRule(gammai[i - candsum], w0, alpha, []))
  {
    NoneIsRule(gammai[i - candsum], w0, alpha, lam);
    tilde := (1.0 - lam) * w0 * gammai[i - candsum];
  }

  /** (1 - lambda) * w0 * g is the rule with no rejection. */
  lemma NoneIsRule(g: real, w0: real, alpha: real, lam: real)
    ensures (1.0 - lam) * w0 * g == Shrink(lam, LordRule(g, w0, alpha, []))
  {
    LordRuleCases(g, w0, alpha, []);
    MulAssoc(1.0 - lam, w0, g);
  }

  /** The K > 1 branch on the decision history R, capped at lambda. */
  method StepMany(pval: seq<real>, gammai: seq<real>, lam: real, alpha: real, w0: real,
                  cand: seq<int>, candsum: int, Cjplus: seq<int>, tau: seq<int>, K: int, i: int,
                  ghost R: seq<bool>)
    returns (Cjplus': seq<int>, a: real)
    requires 1 <= i == |R| < |pval| == |cand| == |Cjplus| <= |gammai|
    requires CandWritten(pval, lam, cand, i) && candsum == CountLe(pval, 0, i, lam)
    requires K == CountTrue(R) >= 2 && tau == Rejected(R)
    requires CjplusCounts(pval, lam, Cjplus, Rejected(R[..i - 1]), i - 1)
    ensures |Cjplus'| == |Cjplus| && CjplusCounts(pval, lam, Cjplus', Rejected(R), i)
    ensures a == SaffronAlpha(pval, gammai, lam, alpha, w0, 0, R)
  {
    ghost var terms := SaffronTerms(pval, gammai, lam, i, R);
    LastRejection(R, K);
    OlderCounts(pval, lam, Cjplus, R, i, tau);
    TermsOfList(pval, gammai, lam, R, tau, terms);
    var tilde;
    Cjplus', tilde := SaffronMany(pval, gammai, lam, alpha, w0, cand, candsum, Cjplus, tau, K, i, terms);
    CountsOfList(pval, lam, Cjplus', tau, i);
    CappedIsSaffron(pval, gammai, lam, alpha, w0, 0, R, candsum, tilde);
    a := Min(lam, tilde);
  }

  /** Pointwise counts of every listed rejection make up CjplusCounts. */
  lemma CountsOfList(pval: seq<real>, lam: real, Cjplus: seq<int>, ts: seq<int>, i: int)
    requires 0 <= i <= |pval| && |ts| <= |Cjplus|
    requires forall m :: 0 <= m < |ts| ==> 0 <= ts[m] && Cjplus[m] == CountLe(pval, ts[m] + 1, i, lam)
    ensures forall m :: 0 <= m < |ts| ==> ts[m] >= 0
    ensures CjplusCounts(pval, lam, Cjplus, ts, i)
  {
  }

  /** The K == 1 branch on the decision history R, capped at lambda. */
  method StepOne(pval: seq<real>, gammai: seq<real>, lam: real, alpha: real, w0: real,
                 cand: seq<int>, candsum: int, Cjplus: seq<int>, tau: seq<int>, i: int,
                 ghost R: seq<bool>)
    returns (Cjplus': seq<int>, a: real)
    requires 1 <= i == |R| < |pval| == |cand| == |Cjplus| <= |gammai|
    requires CandWritten(pval, lam, cand, i) && candsum == CountLe(pval, 0, i, lam)
    requires CountTrue(R) == 1 && tau == Rejected(R)
    ensures |Cjplus'| == |Cjplus| && CjplusCounts(pval, lam, Cjplus', Rejected(R), i)
    ensures a == SaffronAlpha(pval, gammai, lam, alpha, w0, 0, R)
  {
    ghost var terms := SaffronTerms(pval, gammai, lam, i, R);
    TermsOfList(pval, gammai, lam, R, tau, terms);
    var tilde;
    Cjplus', tilde := SaffronOne(pval, gammai, lam, alpha, w0, cand, candsum, Cjplus, tau, i, terms);
    CountsOfList(pval, lam, Cjplus', tau, i);
    CappedIsSaffron(pval, gammai, lam, alpha, w0, 0, R, candsum, tilde);
    a := Min(lam, tilde);
  }

  /** The K == 0 branch on the decision history R, capped at lambda. */
  method StepNone(pval: seq<real>, gammai: seq<real>, lam: real, alpha: real, w0: real,
                  candsum: int, Cjplus: seq<int>, i: int, ghost R: seq<bool>)
    returns (Cjplus': seq<int>, a: real)
    requires 1 <= i == |R| < |pval| <= |gammai|
    requires candsum == CountLe(pval, 0, i, lam) && CountTrue(R) == 0
    ensures Cjplus' == Cjplus && CjplusCounts(pval, lam, Cjplus', Rejected(R), i)
    ensures a == SaffronAlpha(pval, gammai, lam, alpha, w0, 0, R)
  {
    Cjplus' := Cjplus;
    var tilde := SaffronNone(pval, gammai, lam, alpha, w0, candsum, i);
    assert SaffronTerms(pval, gammai, lam, i, R) == [];
    CappedIsSaffron(pval, gammai, lam, alpha, w0, 0, R, candsum, tilde);
    a := Min(lam, tilde);
  }

  /** The candidate update at the start of step i: cand[i-1] written and added to candsum. */
  method MarkCandidate(pval: seq<real>, lam: real, cand: seq<int>, candsum: int, i: int)
    returns (cand': seq<int>, candsum': int)
    requires 1 <= i <= |cand| <= |pval|
    requires CandWritten(pval, lam, cand, i - 1) && candsum == CountLe(pval, 0, i - 1, lam)
    ensures |cand'| == |cand|
    ensures CandWritten(pval, lam, cand', i) && candsum' == CountLe(pval, 0, i, lam)
  {
    cand' := cand[i - 1 := B2I(pval[i - 1] <= lam)];
    CountLeSnoc(pval, 0, i - 1, lam);
    candsum' := candsum + cand'[i - 1];
  }

  /** The three branches of step i, after the tau update, capped at lambda. */
  method SaffronThreshold(pval: seq<real>, gammai: seq<real>, lam: real, alpha: real, w0: real,
                          cand: seq<int>, candsum: int, Cjplus: seq<int>, tau: seq<int>, K: int, i: int,
                          ghost R: seq<bool>)
    returns (Cjplus': seq<int>, a: real)
    requires 1 <= i == |R| < |pval| == |cand| == |Cjplus| <= |gammai|
    requires CandWritten(pval, lam, cand, i) && candsum == CountLe(pval, 0, i, lam)
    requires K == CountTrue(R) && tau == TauOf(Rejected(R))
    requires CjplusCounts(pval, lam, Cjplus, Rejected(R[..i - 1]), i - 1)
    ensures |Cjplus'| == |Cjplus| && CjplusCounts(pval, lam, Cjplus', Rejected(R), i)
    ensures a == SaffronAlpha(pval, gammai, lam, alpha, w0, 0, R)
  {
    if K > 1 {
      Cjplus', a := StepMany(pval, gammai, lam, alpha, w0, cand, candsum, Cjplus, tau, K, i, R);
    } else if K == 1 {
      Cjplus', a := StepOne(pval, gammai, lam, alpha, w0, cand, candsum, Cjplus, tau, i, R);
    } else {
      Cjplus', a := StepNone(pval, gammai, lam, alpha, w0, candsum, Cjplus, i, R);
    }
  }

  /** One step i >= 1 of saffron_faster, up to the capped threshold alphai[i]. */
  method SaffronStep(pval: seq<real>, gammai: seq<real>, lam: real, alpha: real, w0: real,
                     cand: seq<int>, candsum: int, Cjplus: seq<int>, tau: seq<int>, K: int, i: int,
                     R: seq<bool>)
    returns (cand': seq<int>, candsum': int, Cjplus': seq<int>, tau': seq<int>, a: real)
    requires 1 <= i == |R| < |pval| == |cand| == |Cjplus| <= |gammai|
    requires CandWritten(pval, lam, cand, i - 1) && candsum == CountLe(pval, 0, i - 1, lam)
    requires K == CountTrue(R) && tau == TauOf(Rejected(R[..i - 1]))
    requires CjplusCounts(pval, lam, Cjplus, Rejected(R[..i - 1]), i - 1)
    ensures |cand'| == |cand| && |Cjplus'| == |Cjplus|
    ensures CandWritten(pval, lam, cand', i) && candsum' == CountLe(pval, 0, i, lam)
    ensures tau' == TauOf(Rejected(R))
    ensures CjplusCounts(pval, lam, Cjplus', Rejected(R), i)
    ensures a == SaffronAlpha(pval, gammai, lam, alpha, w0, 0, R)
  {
    cand', candsum' := MarkCandidate(pval, lam, cand, candsum, i);
    assert R == R[..i - 1] + [R[i - 1]];
    tau' := LordUpdateTau(tau, K, i, R[i - 1], R[..i - 1]);
    Cjplus', a := SaffronThreshold(pval, gammai, lam, alpha, w0, cand', candsum', Cjplus, tau', K, i, R);
  }

  /** The first threshold: min((1 - lambda) * gammai[0] * w0, lambda). */
  lemma SaffronFirst(pval: seq<real>, gammai: seq<real>, lam: real, alpha: real, w0: real)
    requires 1 <= |pval| <= |gammai|
    ensures SaffronAlpha(pval, gammai, lam, alpha, w0, 0, []) == Min((1.0 - lam) * gammai[0] * w0, lam)
  {
    NoneIsRule(gammai[0], w0, alpha, lam);
    MulAssoc(1.0 - lam, gammai[0], w0);
    MulAssoc(1.0 - lam, w0, gammai[0]);
  }

  /**
   * saffron_faster. The output columns alphai and R are returned as sequences
   * that grow by one entry per step.
   */
  method SaffronFaster(pval: seq<real>, gammai: seq<real>, lam: real, alpha: real, w0: real)
    returns (alphai: seq<real>, R: seq<bool>)
    requires |pval| >= 1 && |gammai| >= |pval|
    ensures |alphai| == |pval| && |R| == |pval|
    ensures alphai[0] == Min((1.0 - lam) * gammai[0] * w0, lam)
    ensures forall k {:trigger alphai[k]} :: 0 <= k < |pval| ==>
              alphai[k] == SaffronAlpha(pval, gammai, lam, alpha, w0, 0, R[..k]) && alphai[k] <= lam
    ensures forall k {:trigger alphai[k]} :: 0 <= k < |pval| ==> R[k] == (pval[k] <= alphai[k])
  {
    var N := |pval|;
    SaffronFirst(pval, gammai, lam, alpha, w0);
    alphai := [Min((1.0 - lam) * gammai[0] * w0, lam)];
    R := [pval[0] <= alphai[0]];
    var candsum := 0;
    var Cjplus := seq(N, _ => 0);
    var cand := seq(N, _ => 0);
    var tau := [0];
    var K := B2I(R[0]);
    assert R[..0] == [];
    var i := 1;
    while i < N
      invariant 1 <= i <= N && |alphai| == i && |R| == i
      invariant |cand| == N && |Cjplus| == N
      invariant CandWritten(pval, lam, cand, i - 1) && candsum == CountLe(pval, 0, i - 1, lam)
      invariant K == CountTrue(R) && tau == TauOf(Rejected(R[..i - 1]))
      invariant CjplusCounts(pval, lam, Cjplus, Rejected(R[..i - 1]), i - 1)
      invariant forall k {:trigger alphai[k]} :: 0 <= k < i ==>
                  alphai[k] == SaffronAlpha(pval, gammai, lam, alpha, w0, 0, R[..k]) && alphai[k] <= lam
      invariant forall k {:trigger alphai[k]} :: 0 <= k < i ==> R[k] == (pval[k] <= alphai[k])
      invariant alphai[0] == Min((1.0 - lam) * gammai[0] * w0, lam)
    {
      var a;
      cand, candsum, Cjplus, tau, a := SaffronStep(pval, gammai, lam, alpha, w0, cand, candsum, Cjplus, tau, K, i, R);
      var b := pval[i] <= a;
      RejectedSnoc(R, b);
      SaffronExtend(pval, gammai, lam, alpha, w0, alphai, R, a, b);
      alphai := alphai + [a];
      R := R + [b];
      K := K + B2I(b);
      i := i + 1;
    }
  }

  /** One more step of a SAFFRON run keeps the recurrence on every prefix. */
  lemma SaffronExtend(pval: seq<real>, gammai: seq<real>, lam: real, alpha: real, w0: real,
                      alphai: seq<real>, rs: seq<bool>, a: real, b: bool)
    requires |rs| == |alphai| < |pval| <= |gammai|
    requires forall k {:trigger alphai[k]} :: 0 <= k < |rs| ==>
               alphai[k] == SaffronAlpha(pval, gammai, lam, alpha, w0, 0, rs[..k]) && alphai[k] <= lam
    requires forall k {:trigger alphai[k]} :: 0 <= k < |rs| ==> rs[k] == (pval[k] <= alphai[k])
    requires a == SaffronAlpha(pval, gammai, lam, alpha, w0, 0, rs) && b == (pval[|rs|] <= a)
    ensures forall k {:trigger (alphai + [a])[k]} :: 0 <= k < |rs| + 1 ==>
              (alphai + [a])[k] == SaffronAlpha(pval, gammai, lam, alpha, w0, 0, (rs + [b])[..k]) &&
              (alphai + [a])[k] <= lam
    ensures forall k {:trigger (alphai + [a])[k]} :: 0 <= k < |rs| + 1 ==> (rs + [b])[k] == (pval[k] <= (alphai + [a])[k])
  {
    PrefixOfSnoc(rs, b);
  }

  // ---------------------------------------------------------------------
  // Properties of the recurrence.

  /** The w0 term's index i - candsum lies in [0, i]. */
  lemma SaffronBaseIndexInRange(pval: seq<real>, lam: real, i: int)
    requires 0 <= i <= |pval|
    ensures 0 <= BaseIndex(pval, lam, 0, i) <= i
  {
  }

  /**
   * After at least one rejection, the uncapped threshold is
   * (1 - lambda) * (w0*gammai[i - candsum] + (alpha - w0)*gammai[i - tau1 - C1 - 1]
   * + alpha * (sum over the later rejections of gammai[i - tauj - Cj - 1])).
   */
  lemma SaffronFormula(pval: seq<real>, gammai: seq<real>, lam: real, alpha: real, w0: real, rs: seq<bool>)
    requires |rs| < |pval| <= |gammai| && CountTrue(rs) >= 1
    ensures SaffronTilde(pval, gammai, lam, alpha, w0, 0, rs) ==
            Shrink(lam, LordHigh(gammai[|rs| - CountLe(pval, 0, |rs|, lam)], w0, alpha,
                                    gammai[SaffronIndex(pval, lam, |rs|, Rejected(rs)[0])],
                                    Sum(SaffronTerms(pval, gammai, lam, |rs|, rs)[1..])))
  {
    var terms := SaffronTerms(pval, gammai, lam, |rs|, rs);
    var g := gammai[|rs| - CountLe(pval, 0, |rs|, lam)];
    SaffronTermsAt(pval, gammai, lam, |rs|, rs);
    LordRuleCases(g, w0, alpha, terms);
    if |terms| == 1 {
      assert terms[1..] == [];
      LordLowIsHigh(g, w0, alpha, terms[0]);
    }
  }

  /** No candidate among pval[lo..hi): the count is 0. */
  lemma {:induction false} CountLeNone(pval: seq<real>, lo: int, hi: int, lam: real)
    requires 0 <= lo && hi <= |pval|
    requires forall k :: lo <= k < hi ==> pval[k] > lam
    ensures CountLe(pval, lo, hi, lam) == 0
    decreases hi - lo
  {
    if hi > lo {
      CountLeNone(pval, lo, hi - 1, lam);
    }
  }

  /**
   * With no candidate so far (every earlier p-value above lambda), SAFFRON's
   * uncapped threshold is LORD++'s threshold scaled by (1 - lambda).
   */
  lemma SaffronWithoutCandidates(pval: seq<real>, gammai: seq<real>, lam: real, alpha: real, w0: real,
                                 rs: seq<bool>)
    requires |rs| < |pval| <= |gammai|
    requires forall k :: 0 <= k < |rs| ==> pval[k] > lam
    ensures SaffronTilde(pval, gammai, lam, alpha, w0, 0, rs) == Shrink(lam, Lord1Alpha(gammai, w0, alpha, rs))
  {
    var i := |rs|;
    CountLeNone(pval, 0, i, lam);
    SaffronTermsAt(pval, gammai, lam, i, rs);
    GapTermsAt(gammai, i, rs);
    forall j | 0 <= j < CountTrue(rs)
      ensures SaffronTerms(pval, gammai, lam, i, rs)[j] == GapTerms(gammai, i, rs)[j]
    {
      var t := Rejected(rs)[j];
      CountLeNone(pval, t + 1, i, lam);
    }
    assert SaffronTerms(pval, gammai, lam, i, rs) == GapTerms(gammai, i, rs);
  }

  /**
   * With non-negative discounts, 0 <= w0 <= alpha and lambda <= 1, every
   * threshold is non-negative.
   */
  lemma SaffronNonNegative(pval: seq<real>, gammai: seq<real>, lam: real, alpha: real, w0: real, rs: seq<bool>)
    requires |rs| < |pval| <= |gammai|
    requires forall k :: 0 <= k < |gammai| ==> gammai[k] >= 0.0
    requires 0.0 <= w0 <= alpha && 0.0 <= lam <= 1.0
    ensures SaffronAlpha(pval, gammai, lam, alpha, w0, 0, rs) >= 0.0
  {
    var terms := SaffronTerms(pval, gammai, lam, |rs|, rs);
    SaffronTermsAt(pval, gammai, lam, |rs|, rs);
    var g := gammai[BaseIndex(pval, lam, 0, |rs|)];
    LordRuleNonNegative(g, w0, alpha, terms);
    ShrinkNonNegative(lam, LordRule(g, w0, alpha, terms));
  }

  /** The LORD rule over non-negative terms, with 0 <= w0 <= a, is non-negative. */
  lemma LordRuleNonNegative(g: real, w0: real, a: real, terms: seq<real>)
    requires g >= 0.0 && 0.0 <= w0 <= a
    requires forall k :: 0 <= k < |terms| ==> terms[k] >= 0.0
    ensures LordRule(g, w0, a, terms) >= 0.0
  {
    LordRuleCases(g, w0, a, terms);
    if |terms| >= 2 {
      SumNonNegative(terms[1..]);
      ProductsNonNegative(w0, g, a - w0, terms[0], a, Sum(terms[1..]));
    } else if |terms| == 1 {
      ProductsNonNegative(w0, g, a - w0, terms[0], 0.0, 0.0);
    } else {
      ProductsNonNegative(w0, g, 0.0, 0.0, 0.0, 0.0);
    }
  }

  /** A sum of three products of non-negative factors is non-negative. */
  lemma ProductsNonNegative(a: real, b: real, c: real, d: real, e: real, f: real)
    requires a >= 0.0 && b >= 0.0 && c >= 0.0 && d >= 0.0 && e >= 0.0 && f >= 0.0
    ensures a * b >= 0.0 && c * d >= 0.0 && e * f >= 0.0
    ensures a * b + c * d + e * f >= 0.0
  {
  }

  /** Scaling a non-negative value by (1 - lambda), lambda <= 1, keeps it non-negative. */
  lemma ShrinkNonNegative(lam: real, x: real)
    requires lam <= 1.0 && x >= 0.0
    ensures Shrink(lam, x) >= 0.0
  {
  }
}
