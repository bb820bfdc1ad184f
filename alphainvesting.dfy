/*
 * Alpha-investing (alphainvesting_faster). The wealth at step i is the LORD
 * form w0*gammai[i - candsum] + (alpha - w0)*gammai[i - tau[0] - Cjplus[0] - 1]
 * + alpha * (the same term for every later rejection), and the level is
 * wealth / (1 + wealth). The candidates are the rejections themselves
 * (cand[k] = (pval[k] <= alphai[k])), so candsum is the rejection count K and
 * Cjplus[j] is the number of rejections after tau[j], that is K - 1 - j.
 */
module AlphaInvesting {
  import opened Common
  import opened Lord
  import Saffron

  // ---------------------------------------------------------------------
  // The threshold as a function of the decision history.

  /** Strictly increasing indices gain at least one per position. */
  lemma {:induction false} IncreasingGap(ts: seq<int>, j: int, m: int)
    requires Increasing(ts) && 0 <= j <= m < |ts|
    ensures ts[j] + (m - j) <= ts[m]
    decreases m - j
  {
    if j < m {
      IncreasingGap(ts, j, m - 1);
    }
  }

  /** The j-th rejection leaves room below |rs| for the K - 1 - j later ones. */
  lemma RejectedGap(rs: seq<bool>, j: int)
    requires 0 <= j < CountTrue(rs)
    ensures Rejected(rs)[j] + (CountTrue(rs) - 1 - j) < |rs|
  {
    RejectedIncreasing(rs);
    IncreasingGap(Rejected(rs), j, CountTrue(rs) - 1);
  }

  /**
   * gammai index of the j-th rejection at step i = |rs|:
   * i - tau[j] - Cjplus[j] - 1, where Cjplus[j] = K - 1 - j rejections follow
   * tau[j]. It always lies in [0, i).
   */
  function InvestIndex(rs: seq<bool>, j: int): (ix: int)
    requires 0 <= j < CountTrue(rs)
    ensures 0 <= ix < |rs|
  {
    RejectedGap(rs, j);
    |rs| - Rejected(rs)[j] - (CountTrue(rs) - 1 - j) - 1
  }

  /** The gammai term of every rejection at step |rs|, in rejection order. */
  function InvestTerms(gammai: seq<real>, rs: seq<bool>): (t: seq<real>)
    requires |rs| <= |gammai|
    ensures |t| == CountTrue(rs)
  {
    seq(CountTrue(rs), j requires 0 <= j < CountTrue(rs) => gammai[InvestIndex(rs, j)])
  }

  /** The wealth alphaitilde at step i = |rs|: the LORD rule on gammai[i - K] and the rejection terms. */
  function InvestWealth(gammai: seq<real>, w0: real, alpha: real, rs: seq<bool>): real
    requires |rs| < |gammai|
  {
    LordRule(gammai[|rs| - CountTrue(rs)], w0, alpha, InvestTerms(gammai, rs))
  }

  /** alphai[i] = t / (1 + t) for the wealth t at step i = |rs|; None where 1 + t = 0. */
  function InvestAlpha(gammai: seq<real>, w0: real, alpha: real, rs: seq<bool>): Option<real>
    requires |rs| < |gammai|
  {
    var t := InvestWealth(gammai, w0, alpha, rs);
    if 1.0 + t == 0.0 then None else Some(t / (1.0 + t))
  }

  /** The rule as a function of the history alone; None beyond gammai. */
  function InvestRule(gammai: seq<real>, w0: real, alpha: real): (f: seq<bool> -> Option<real>)
    ensures forall rs :: |rs| < |gammai| ==> f(rs) == InvestAlpha(gammai, w0, alpha, rs)
  {
    rs => if |rs| < |gammai| then InvestAlpha(gammai, w0, alpha, rs) else None
  }

  // ---------------------------------------------------------------------
  // Properties of the rule.

  /** Before any decision the level is gammai[0]*w0 / (1 + gammai[0]*w0). */
  lemma InvestFirst(gammai: seq<real>, w0: real, alpha: real)
    requires |gammai| >= 1
    ensures InvestAlpha(gammai, w0, alpha, []) ==
            (if 1.0 + gammai[0] * w0 == 0.0 then None else Some(gammai[0] * w0 / (1.0 + gammai[0] * w0)))
  {
    LordRuleCases(gammai[0], w0, alpha, []);
    assert InvestWealth(gammai, w0, alpha, []) == gammai[0] * w0;
  }

  /** A non-negative wealth t gives a level t / (1 + t) in [0, 1). */
  lemma LevelOfWealth(t: real)
    requires t >= 0.0
    ensures 0.0 <= t / (1.0 + t) < 1.0
  {
    var q := t / (1.0 + t);
    assert q * (1.0 + t) == t;
  }

  /**
   * With gammai >= 0 and 0 <= w0 <= alpha the wealth is non-negative, so the
   * level is always defined and lies in [0, 1).
   */
  lemma InvestAlphaBounds(gammai: seq<real>, w0: real, alpha: real, rs: seq<bool>)
    requires |rs| < |gammai| && forall k :: 0 <= k < |gammai| ==> gammai[k] >= 0.0
    requires 0.0 <= w0 <= alpha
    ensures InvestAlpha(gammai, w0, alpha, rs).Some?
    ensures 0.0 <= InvestAlpha(gammai, w0, alpha, rs).value < 1.0
  {
    var terms := InvestTerms(gammai, rs);
    assert forall m :: 0 <= m < |terms| ==> terms[m] >= 0.0;
    Saffron.LordRuleNonNegative(gammai[|rs| - CountTrue(rs)], w0, alpha, terms);
    LevelOfWealth(InvestWealth(gammai, w0, alpha, rs));
  }

  /** No decision after the last listed rejection is a rejection. */
  lemma {:induction false} NothingAfterLast(rs: seq<bool>)
    requires CountTrue(rs) >= 1
    ensures forall k :: Rejected(rs)[CountTrue(rs) - 1] < k < |rs| ==> !rs[k]
  {
    var ts := Rejected(rs);
    RejectedIncreasing(rs);
    RejectionsListed(rs);
    forall k | ts[|ts| - 1] < k < |rs| && rs[k]
      ensures false
    {
      assert k in ts;
      var m :| 0 <= m < |ts| && ts[m] == k;
    }
  }

  // ---------------------------------------------------------------------
  // The bookkeeping of the loop.

  /** cand as written by step n: cand[k] = R[k] for k < n, 0 beyond. */
  ghost predicate InvestCand(cand: seq<int>, R: seq<bool>, n: int)
  {
    n <= |R| && forall k :: 0 <= k < |cand| ==> cand[k] == (if k < n then B2I(R[k]) else 0)
  }

  /** Cjplus[j] = K - 1 - j for each of the K rejections in rs. */
  ghost predicate InvestCjplus(Cjplus: seq<int>, rs: seq<bool>)
  {
    CountTrue(rs) <= |Cjplus| && forall j :: 0 <= j < CountTrue(rs) ==> Cjplus[j] == CountTrue(rs) - 1 - j
  }

  /** A sum of cand over lo..hi is 0 when every entry there is 0. */
  lemma {:induction false} CandTotalZero(cand: seq<int>, lo: int, hi: int)
    requires 0 <= lo && hi < |cand| && forall k :: lo <= k <= hi ==> cand[k] == 0
    ensures Saffron.CandTotal(cand, lo, hi) == 0
    decreases hi - lo
  {
    if hi >= lo {
      CandTotalZero(cand, lo, hi - 1);
    }
  }

  /** The recount after the last rejection finds no candidate: Cjplus[K-1] = 0. */
  lemma RecountAfterLast(cand: seq<int>, R: seq<bool>, low: int, high: int)
    requires InvestCand(cand, R, |R|) && CountTrue(R) >= 1 && low == Rejected(R)[CountTrue(R) - 1] + 1
    requires high < |cand|
    ensures Saffron.CandTotal(cand, low, high) == 0
  {
    NothingAfterLast(R);
    CandTotalZero(cand, low, high);
  }

  /**
   * The first loop of the K > 1 branch: Cjplus[j] += cand[i-1] and the term
   * gammai[i - tau[j] - Cjplus[j] - 1] summed, for j < K - 1.
   */
  method InvestIncrement(gammai: seq<real>, inc: int, Cjplus: seq<int>, tau: seq<int>, K: int, i: int,
                         ghost terms: seq<real>)
    returns (Cjplus': seq<int>, s: real)
    requires 2 <= K <= |tau| && K <= |Cjplus| && |terms| == K
    requires forall j :: 0 <= j < K - 1 ==> Cjplus[j] + inc == K - 1 - j
    requires forall j :: 0 <= j < K ==>
               0 <= i - tau[j] - (K - 1 - j) - 1 < |gammai| && terms[j] == gammai[i - tau[j] - (K - 1 - j) - 1]
    ensures |Cjplus'| == |Cjplus|
    ensures forall j :: 0 <= j < K - 1 ==> Cjplus'[j] == K - 1 - j
    ensures forall j :: K - 1 <= j < |Cjplus| ==> Cjplus'[j] == Cjplus[j]
    ensures 0 <= i - tau[0] - (K - 1) - 1 < |gammai| && terms[0] == gammai[i - tau[0] - (K - 1) - 1]
    ensures 0 <= i - tau[K - 1] - 1 < |gammai| && terms[K - 1] == gammai[i - tau[K - 1] - 1]
    ensures s == Sum(terms[..K - 1])
  {
    assert 0 <= i - tau[K - 1] - (K - 1 - (K - 1)) - 1 < |gammai|;
    Cjplus' := Cjplus;
    s := 0.0;
    var j := 0;
    while j < K - 1
      invariant 0 <= j <= K - 1 && |Cjplus'| == |Cjplus|
      invariant forall m :: 0 <= m < j ==> Cjplus'[m] == K - 1 - m
      invariant forall m :: j <= m < |Cjplus| ==> Cjplus'[m] == Cjplus[m]
      invariant s == Sum(terms[..j])
    {
      Cjplus' := Cjplus'[j := Cjplus'[j] + inc];
      SumSnoc(terms, j);
      s := s + gammai[i - tau[j] - Cjplus'[j] - 1];
      j := j + 1;
    }
  }

  /** The rejection terms at step |R|, read through the tau list. */
  lemma {:induction false} TermsThroughTau(gammai: seq<real>, R: seq<bool>, tau: seq<int>)
    requires 1 <= |R| < |gammai| && CountTrue(R) >= 1 && tau == Rejected(R)
    ensures forall j :: 0 <= j < CountTrue(R) ==>
              0 <= |R| - tau[j] - (CountTrue(R) - 1 - j) - 1 < |R| &&
              InvestTerms(gammai, R)[j] == gammai[|R| - tau[j] - (CountTrue(R) - 1 - j) - 1]
  {
    var terms := InvestTerms(gammai, R);
    forall j | 0 <= j < CountTrue(R)
      ensures 0 <= |R| - tau[j] - (CountTrue(R) - 1 - j) - 1 < |R|
      ensures terms[j] == gammai[|R| - tau[j] - (CountTrue(R) - 1 - j) - 1]
    {
      var ix := InvestIndex(R, j);
      assert ix == |R| - tau[j] - (CountTrue(R) - 1 - j) - 1;
      assert terms[j] == gammai[ix];
    }
  }

  /** tau after the source's push_back / overwrite on the decision R[i-1]. */
  method InvestUpdateTau(tau: seq<int>, K: int, R: seq<bool>) returns (tau': seq<int>)
    requires |R| >= 1 && K == CountTrue(R) && tau == TauOf(Rejected(R[..|R| - 1]))
    ensures tau' == TauOf(Rejected(R))
  {
    ghost var rs := R[..|R| - 1];
    assert rs + [R[|R| - 1]] == R;
    tau' := LordUpdateTau(tau, K, |R|, R[|R| - 1], rs);
  }

  /** Adding cand[i-1] = R[i-1] to the older Cjplus entries gives K - 1 - j again. */
  lemma IncrementCounts(Cjplus: seq<int>, R: seq<bool>, inc: int)
    requires |R| >= 1 && InvestCjplus(Cjplus, R[..|R| - 1]) && inc == B2I(R[|R| - 1])
    ensures forall j :: 0 <= j < CountTrue(R) - 1 ==> Cjplus[j] + inc == CountTrue(R) - 1 - j
  {
  }

  /** The K > 1 branch at step i = |R|: tau, Cjplus and the wealth. */
  method InvestMany(gammai: seq<real>, alpha: real, w0: real, R: seq<bool>, cand: seq<int>, candsum: int,
                    Cjplus: seq<int>, tau: seq<int>, K: int)
    returns (tau': seq<int>, Cjplus': seq<int>, t: real)
    requires 1 <= |R| < |cand| == |Cjplus| <= |gammai|
    requires K == CountTrue(R) >= 2 && candsum == K
    requires tau == TauOf(Rejected(R[..|R| - 1])) && InvestCjplus(Cjplus, R[..|R| - 1])
    requires InvestCand(cand, R, |R|)
    ensures tau' == TauOf(Rejected(R)) && |Cjplus'| == |Cjplus| && InvestCjplus(Cjplus', R)
    ensures t == InvestWealth(gammai, w0, alpha, R)
  {
    ghost var terms := InvestTerms(gammai, R);
    var s;
    tau', Cjplus', s := InvestManyHead(gammai, R, cand[|R| - 1], Cjplus, tau, K, terms);
    Cjplus', t := InvestManyTail(gammai, alpha, w0, R, cand, candsum, Cjplus', tau', K, s, terms);
    InvestWealthHigh(gammai, w0, alpha, R, terms[0], Sum(terms[1..]));
  }

  /** The start of the K > 1 branch: tau updated, then Cjplus[j] += cand[i-1] and the sum for j < K - 1. */
  method InvestManyHead(gammai: seq<real>, R: seq<bool>, inc: int, Cjplus: seq<int>, tau: seq<int>, K: int,
                        ghost terms: seq<real>)
    returns (tau': seq<int>, Cjplus': seq<int>, s: real)
    requires 1 <= |R| <= |Cjplus| && |R| < |gammai| && inc == B2I(R[|R| - 1])
    requires K == CountTrue(R) >= 2 && terms == InvestTerms(gammai, R)
    requires tau == TauOf(Rejected(R[..|R| - 1])) && InvestCjplus(Cjplus, R[..|R| - 1])
    ensures tau' == Rejected(R) && |tau'| == K && MaxOf(tau') == tau'[K - 1]
    ensures |Cjplus'| == |Cjplus| && Cjplus'[0] == K - 1
    ensures forall j :: 0 <= j < K - 1 ==> Cjplus'[j] == K - 1 - j
    ensures 0 <= |R| - tau'[0] - (K - 1) - 1 < |gammai| && terms[0] == gammai[|R| - tau'[0] - (K - 1) - 1]
    ensures 0 <= |R| - tau'[K - 1] - 1 < |gammai| && terms[K - 1] == gammai[|R| - tau'[K - 1] - 1]
    ensures s == Sum(terms[..K - 1])
  {
    tau' := InvestUpdateTau(tau, K, R);
    TermsThroughTau(gammai, R, tau');
    IncrementCounts(Cjplus, R, inc);
    Cjplus', s := InvestIncrement(gammai, inc, Cjplus, tau', K, |R|, terms);
    Saffron.LastRejection(R, K);
  }

  /**
   * The end of the K > 1 branch: Cjplus[K-1] recounted (it is 0), the first
   * term swapped for the last in the sum, then alphaitilde.
   */
  method InvestManyTail(gammai: seq<real>, alpha: real, w0: real, R: seq<bool>, cand: seq<int>, candsum: int,
                        Cjplus: seq<int>, tau: seq<int>, K: int, s: real, ghost terms: seq<real>)
    returns (Cjplus': seq<int>, t: real)
    requires 1 <= |R| < |cand| == |Cjplus| <= |gammai| && 0 <= candsum <= |R|
    requires 2 <= K == CountTrue(R) == |tau| == |terms| && tau == Rejected(R) && MaxOf(tau) == tau[K - 1]
    requires InvestCand(cand, R, |R|) && Cjplus[0] == K - 1
    requires 0 <= |R| - tau[0] - (K - 1) - 1 < |gammai| && terms[0] == gammai[|R| - tau[0] - (K - 1) - 1]
    requires 0 <= |R| - tau[K - 1] - 1 < |gammai| && terms[K - 1] == gammai[|R| - tau[K - 1] - 1]
    requires s == Sum(terms[..K - 1])
    ensures Cjplus' == Cjplus[K - 1 := 0]
    ensures t == LordHigh(gammai[|R| - candsum], w0, alpha, terms[0], Sum(terms[1..]))
  {
    var i := |R|;
    var low := tau[K - 1] + 1;
    var high := MaxInt(i - 1, MaxOf(tau) + 1);
    var c := Saffron.Recount(cand, low, high);
    RecountAfterLast(cand, R, low, high);
    Cjplus' := Cjplus[K - 1 := c];
    var first := gammai[i - tau[0] - Cjplus'[0] - 1];
    var last := gammai[i - tau[K - 1] - Cjplus'[K - 1] - 1];
    Saffron.SumSwapFirstForLast(terms, s, last, first);
    t := LordHigh(gammai[i - candsum], w0, alpha, first, s + (last - first));
  }

  /** With K >= 2 rejections the wealth is the LordHigh form on the first term and the rest. */
  lemma InvestWealthHigh(gammai: seq<real>, w0: real, alpha: real, R: seq<bool>, first: real, rest: real)
    requires |R| < |gammai| && CountTrue(R) >= 2
    requires first == InvestTerms(gammai, R)[0] && rest == Sum(InvestTerms(gammai, R)[1..])
    ensures InvestWealth(gammai, w0, alpha, R) == LordHigh(gammai[|R| - CountTrue(R)], w0, alpha, first, rest)
  {
    LordRuleCases(gammai[|R| - CountTrue(R)], w0, alpha, InvestTerms(gammai, R));
  }

  /** With one rejection the wealth is the LordLow form on its term. */
  lemma InvestWealthLow(gammai: seq<real>, w0: real, alpha: real, R: seq<bool>, term: real)
    requires |R| < |gammai| && CountTrue(R) == 1 && term == InvestTerms(gammai, R)[0]
    ensures InvestWealth(gammai, w0, alpha, R) == LordLow(gammai[|R| - 1], w0, alpha, term)
  {
    LordRuleCases(gammai[|R| - 1], w0, alpha, InvestTerms(gammai, R));
  }

  /** The K == 1 branch at step i = |R|: tau[0], Cjplus[0] and the wealth. */
  method InvestOne(gammai: seq<real>, alpha: real, w0: real, R: seq<bool>, cand: seq<int>, candsum: int,
                   Cjplus: seq<int>, tau: seq<int>)
    returns (tau': seq<int>, Cjplus': seq<int>, t: real)
    requires 1 <= |R| < |cand| == |Cjplus| <= |gammai|
    requires CountTrue(R) == 1 && candsum == 1
    requires tau == TauOf(Rejected(R[..|R| - 1]))
    requires InvestCand(cand, R, |R|)
    ensures tau' == TauOf(Rejected(R)) && |Cjplus'| == |Cjplus| && InvestCjplus(Cjplus', R)
    ensures t == InvestWealth(gammai, w0, alpha, R)
  {
    var i := |R|;
    tau' := InvestUpdateTau(tau, 1, R);
    ghost var terms := InvestTerms(gammai, R);
    TermsThroughTau(gammai, R, tau');
    Saffron.LastRejection(R, 1);
    var low := tau'[0] + 1;
    var c := Saffron.Recount(cand, low, MaxInt(i - 1, MaxOf(tau') + 1));
    RecountAfterLast(cand, R, low, MaxInt(i - 1, MaxOf(tau') + 1));
    Cjplus' := Cjplus[0 := c];
    var term := gammai[i - tau'[0] - Cjplus'[0] - 1];
    InvestWealthLow(gammai, w0, alpha, R, term);
    t := LordLow(gammai[i - candsum], w0, alpha, term);
  }

  /** The three branches on K at step i = |R|: tau, Cjplus and the wealth alphaitilde. */
  method InvestWealthStep(gammai: seq<real>, alpha: real, w0: real, R: seq<bool>, cand: seq<int>, candsum: int,
                          Cjplus: seq<int>, tau: seq<int>, K: int)
    returns (tau': seq<int>, Cjplus': seq<int>, t: real)
    requires 1 <= |R| < |cand| == |Cjplus| <= |gammai|
    requires K == CountTrue(R) && candsum == K
    requires tau == TauOf(Rejected(R[..|R| - 1])) && InvestCjplus(Cjplus, R[..|R| - 1])
    requires InvestCand(cand, R, |R|)
    ensures tau' == TauOf(Rejected(R)) && |Cjplus'| == |Cjplus| && InvestCjplus(Cjplus', R)
    ensures t == InvestWealth(gammai, w0, alpha, R)
  {
    if K > 1 {
      tau', Cjplus', t := InvestMany(gammai, alpha, w0, R, cand, candsum, Cjplus, tau, K);
    } else if K == 1 {
      tau', Cjplus', t := InvestOne(gammai, alpha, w0, R, cand, candsum, Cjplus, tau);
    } else {
      ghost var rs := R[..|R| - 1];
      assert rs + [R[|R| - 1]] == R;
      RejectedSnoc(rs, R[|R| - 1]);
      tau' := tau;
      Cjplus' := Cjplus;
      InvestWealthNone(gammai, w0, alpha, R);
      t := w0 * gammai[|R| - candsum];
    }
  }

  /** The bookkeeping at the start of step |R|. */
  ghost predicate InvestState(pval: seq<real>, cand: seq<int>, candsum: int, Cjplus: seq<int>, tau: seq<int>,
                              K: int, R: seq<bool>)
  {
    1 <= |R| <= |pval| == |cand| == |Cjplus| &&
    InvestCand(cand, R, |R| - 1) && candsum == CountTrue(R[..|R| - 1]) && K == CountTrue(R) &&
    tau == TauOf(Rejected(R[..|R| - 1])) && InvestCjplus(Cjplus, R[..|R| - 1])
  }

  /** cand[i-1] set to the decision on p_{i-1}, and candsum increased by it. */
  method InvestCandUpdate(pval: seq<real>, alphai: seq<real>, R: seq<bool>, cand: seq<int>, candsum: int)
    returns (cand': seq<int>, candsum': int)
    requires 1 <= |R| <= |cand| && Decided(pval, alphai, R)
    requires InvestCand(cand, R, |R| - 1) && candsum == CountTrue(R[..|R| - 1])
    ensures |cand'| == |cand| && InvestCand(cand', R, |R|) && candsum' == CountTrue(R)
  {
    var i := |R|;
    assert R[..i - 1] + [R[i - 1]] == R;
    RejectedSnoc(R[..i - 1], R[i - 1]);
    cand' := cand[i - 1 := B2I(pval[i - 1] <= alphai[i - 1])];
    candsum' := candsum + cand'[i - 1];
  }

  /** With no rejection the wealth is w0 gammai[i]. */
  lemma InvestWealthNone(gammai: seq<real>, w0: real, alpha: real, R: seq<bool>)
    requires |R| < |gammai| && CountTrue(R) == 0
    ensures InvestWealth(gammai, w0, alpha, R) == w0 * gammai[|R|]
  {
    LordRuleCases(gammai[|R|], w0, alpha, []);
    assert InvestTerms(gammai, R) == [];
  }

  /** Step i >= 1 of alphainvesting_faster, up to alphai[i]; ok == false where 1 + alphaitilde = 0. */
  method InvestStep(pval: seq<real>, gammai: seq<real>, alpha: real, w0: real, alphai: seq<real>,
                    R: seq<bool>, cand: seq<int>, candsum: int, Cjplus: seq<int>, tau: seq<int>, K: int)
    returns (cand': seq<int>, candsum': int, Cjplus': seq<int>, tau': seq<int>, ok: bool, a: real)
    requires InvestState(pval, cand, candsum, Cjplus, tau, K, R) && |R| < |pval| <= |gammai|
    requires Decided(pval, alphai, R)
    ensures |cand'| == |cand| && |Cjplus'| == |Cjplus|
    ensures InvestCand(cand', R, |R|) && candsum' == K
    ensures tau' == TauOf(Rejected(R)) && InvestCjplus(Cjplus', R)
    ensures ok <==> InvestAlpha(gammai, w0, alpha, R).Some?
    ensures ok ==> InvestAlpha(gammai, w0, alpha, R) == Some(a)
  {
    var i := |R|;
    cand', candsum' := InvestCandUpdate(pval, alphai, R, cand, candsum);
    var t;
    tau', Cjplus', t := InvestWealthStep(gammai, alpha, w0, R, cand', candsum', Cjplus, tau, K);
    if 1.0 + t == 0.0 {
      return cand', candsum', Cjplus', tau', false, 0.0;
    }
    ok := true;
    a := t / (1.0 + t);
  }

  /** The counters after step |R| are the bookkeeping at the start of the next step. */
  lemma InvestExtendState(pval: seq<real>, cand: seq<int>, candsum: int, Cjplus: seq<int>, tau: seq<int>,
                          K: int, R: seq<bool>, b: bool)
    requires 1 <= |R| < |pval| == |cand| == |Cjplus| && K == CountTrue(R)
    requires InvestCand(cand, R, |R|) && candsum == K
    requires tau == TauOf(Rejected(R)) && InvestCjplus(Cjplus, R)
    ensures InvestState(pval, cand, candsum, Cjplus, tau, K + B2I(b), R + [b])
  {
    RejectedSnoc(R, b);
    assert (R + [b])[..|R|] == R;
    forall k | 0 <= k < |R|
      ensures (R + [b])[k] == R[k]
    {
    }
  }

  /** One iteration of the main loop: step |R|, its decision, and the counters for the next step. */
  method InvestAdvance(pval: seq<real>, gammai: seq<real>, alpha: real, w0: real, alphai: seq<real>,
                       R: seq<bool>, cand: seq<int>, candsum: int, Cjplus: seq<int>, tau: seq<int>, K: int)
    returns (alphai': seq<real>, R': seq<bool>, cand': seq<int>, candsum': int, Cjplus': seq<int>,
             tau': seq<int>, K': int, ok: bool)
    requires InvestState(pval, cand, candsum, Cjplus, tau, K, R) && |R| < |pval| <= |gammai|
    requires IsRunOf(InvestRule(gammai, w0, alpha), alphai, R) && Decided(pval, alphai, R)
    ensures !ok ==> alphai' == alphai && R' == R && InvestAlpha(gammai, w0, alpha, R).None?
    ensures ok ==> |R'| == |R| + 1 && |alphai'| == |R'| && alphai'[0] == alphai[0]
    ensures ok ==> InvestState(pval, cand', candsum', Cjplus', tau', K', R')
    ensures ok ==> IsRunOf(InvestRule(gammai, w0, alpha), alphai', R') && Decided(pval, alphai', R')
  {
    var i := |R|;
    var a;
    cand', candsum', Cjplus', tau', ok, a := InvestStep(pval, gammai, alpha, w0, alphai, R, cand, candsum,
                                                        Cjplus, tau, K);
    if !ok {
      return alphai, R, cand', candsum', Cjplus', tau', K, false;
    }
    var b := pval[i] <= a;
    InvestExtendState(pval, cand', candsum', Cjplus', tau', K, R, b);
    DecisionsSnoc(pval, alphai, R, a, b);
    RunOfSnoc(InvestRule(gammai, w0, alpha), alphai, R, a, b);
    alphai' := alphai + [a];
    R' := R + [b];
    K' := K + B2I(b);
  }

  /**
   * alphainvesting_faster. Every alphai[k] is InvestAlpha on the first k
   * decisions and R[k] = (pval[k] <= alphai[k]); the run stops with
   * ok == false at the first step whose wealth t has 1 + t = 0.
   */
  method AlphaInvestingFaster(pval: seq<real>, gammai: seq<real>, alpha: real, w0: real)
    returns (alphai: seq<real>, R: seq<bool>, ok: bool)
    requires |pval| >= 1 && |gammai| >= |pval|
    ensures |alphai| == |R| <= |pval|
    ensures forall k {:trigger alphai[k]} :: 0 <= k < |R| ==>
              InvestAlpha(gammai, w0, alpha, R[..k]) == Some(alphai[k])
    ensures forall k {:trigger pval[k]} :: 0 <= k < |R| ==> R[k] == (pval[k] <= alphai[k])
    ensures ok <==> |R| == |pval|
    ensures !ok ==> InvestAlpha(gammai, w0, alpha, R).None?
  {
    var N := |pval|;
    InvestFirst(gammai, w0, alpha);
    if 1.0 + gammai[0] * w0 == 0.0 {
      return [], [], false;
    }
    alphai := [gammai[0] * w0 / (1.0 + gammai[0] * w0)];
    R := [pval[0] <= alphai[0]];
    var candsum := 0;
    var Cjplus := seq(N, _ => 0);
    var cand := seq(N, _ => 0);
    var tau := [0];
    var K := B2I(R[0]);
    assert R[..0] == [] && CountTrue(R) == K;
    while |R| < N
      invariant InvestState(pval, cand, candsum, Cjplus, tau, K, R)
      invariant IsRunOf(InvestRule(gammai, w0, alpha), alphai, R) && Decided(pval, alphai, R)
      invariant InvestAlpha(gammai, w0, alpha, []) == Some(alphai[0])
      decreases N - |R|
    {
      var stepOk;
      alphai, R, cand, candsum, Cjplus, tau, K, stepOk :=
        InvestAdvance(pval, gammai, alpha, w0, alphai, R, cand, candsum, Cjplus, tau, K);
      if !stepOk {
        InvestRows(gammai, w0, alpha, alphai, R);
        return alphai, R, false;
      }
    }
    InvestRows(gammai, w0, alpha, alphai, R);
    ok := true;
  }

  /** Every threshold of a run, one index at a time. */
  lemma InvestRows(gammai: seq<real>, w0: real, alpha: real, alphai: seq<real>, R: seq<bool>)
    requires 1 <= |R| <= |gammai| && IsRunOf(InvestRule(gammai, w0, alpha), alphai, R)
    requires InvestAlpha(gammai, w0, alpha, []) == Some(alphai[0])
    ensures forall k {:trigger alphai[k]} :: 0 <= k < |R| ==>
              InvestAlpha(gammai, w0, alpha, R[..k]) == Some(alphai[k])
  {
    var f := InvestRule(gammai, w0, alpha);
    RunOfRows(f, alphai, R);
    forall k | 0 <= k < |R|
      ensures InvestAlpha(gammai, w0, alpha, R[..k]) == Some(alphai[k])
    {
      if k == 0 {
        assert R[..0] == [];
      } else {
        assert f(R[..k]) == Some(alphai[k]);
      }
    }
  }
}
