/*
 * LORD (significance Levels based On Recent Discovery), lord_faster in four
 * versions: 1 = LORD++, 2 = LORD with discarding, 3 = LORD 3 (wealth reset at
 * the last rejection), 4 = LORD under dependence.
 */
module Lord {
  import opened Common

  // ---------------------------------------------------------------------
  // Version 1: LORD++.

  /**
   * The discount values gammai[i - t - 1] contributed at step i by the
   * rejections t among the decisions rs, in rejection order.
   */
  function GapTerms(gammai: seq<real>, i: int, rs: seq<bool>): (r: seq<real>)
    requires |rs| <= i <= |gammai|
    ensures |r| == CountTrue(rs)
  {
    if |rs| == 0 then []
    else
      var n := |rs| - 1;
      GapTerms(gammai, i, rs[..n]) + (if rs[n] then [gammai[i - n - 1]] else [])
  }

  /** The j-th term belongs to the j-th rejection. */
  lemma {:induction false} GapTermsAt(gammai: seq<real>, i: int, rs: seq<bool>)
    requires |rs| <= i <= |gammai|
    ensures forall j :: 0 <= j < CountTrue(rs) ==>
              GapTerms(gammai, i, rs)[j] == gammai[i - Rejected(rs)[j] - 1]
  {
    if |rs| > 0 {
      var n := |rs| - 1;
      GapTermsAt(gammai, i, rs[..n]);
      assert rs == rs[..n] + [rs[n]];
      RejectedSnoc(rs[..n], rs[n]);
    }
  }

  /** The K <= 1 form: w0*gammai[i] + (alpha - w0)*Cjsum. */
  function LordLow(g: real, w0: real, alpha: real, cjsum: real): real
  {
    w0 * g + (alpha - w0) * cjsum
  }

  /** The K >= 2 form: w0*gammai[i] + (alpha - w0)*(first term) + alpha*(the rest). */
  function LordHigh(g: real, w0: real, alpha: real, first: real, rest: real): real
  {
    w0 * g + (alpha - w0) * first + alpha * rest
  }

  /**
   * The LORD rule shared by versions 1 and 2: w0 * g, plus (a - w0) times the
   * first rejection's term, plus a times the later rejections' terms.
   */
  function LordRule(g: real, w0: real, a: real, terms: seq<real>): real
  {
    if |terms| <= 1 then LordLow(g, w0, a, Sum(terms))
    else LordHigh(g, w0, a, terms[0], Sum(terms[1..]))
  }

  /** The LORD++ threshold at step i = |rs| given the decisions rs on steps 0..i-1. */
  function Lord1Alpha(gammai: seq<real>, w0: real, alpha: real, rs: seq<bool>): real
    requires |rs| < |gammai|
  {
    LordRule(gammai[|rs|], w0, alpha, GapTerms(gammai, |rs|, rs))
  }

  /**
   * The rejection list as the source keeps it: `tau` starts as the one-element
   * vector {0}, so before the first rejection it still holds that 0.
   */
  function TauOf(ts: seq<int>): seq<int>
  {
    if |ts| == 0 then [0] else ts
  }

  /**
   * tau as kept by the source: the rejection indices in increasing order,
   * or the placeholder {0}; its size is max(K, 1).
   */
  lemma TauShape(rs: seq<bool>)
    ensures |TauOf(Rejected(rs))| == MaxInt(CountTrue(rs), 1)
    ensures Increasing(TauOf(Rejected(rs)))
    ensures CountTrue(rs) >= 1 ==> forall k :: 0 <= k < CountTrue(rs) ==> rs[TauOf(Rejected(rs))[k]]
  {
    RejectedExactly(rs);
  }

  /** Cjsum: the sum of gammai[i - ts[j] - 1] over the listed rejections. */
  method GapSum(gammai: seq<real>, i: int, ts: seq<int>, ghost terms: seq<real>) returns (cjsum: real)
    requires i <= |gammai| && |terms| == |ts|
    requires forall j :: 0 <= j < |ts| ==> 0 <= ts[j] < i && terms[j] == gammai[i - ts[j] - 1]
    ensures cjsum == Sum(terms)
  {
    cjsum := 0.0;
    var j := 0;
    while j < |ts|
      invariant 0 <= j <= |ts|
      invariant cjsum == Sum(terms[..j])
    {
      SumSnoc(terms, j);
      cjsum := cjsum + gammai[i - ts[j] - 1];
      j := j + 1;
    }
    assert terms[..j] == terms;
  }

  /**
   * The tau update at the start of step i of version 1: the decision `last`
   * at step i-1 overwrites tau[0] while K <= 1 and is appended after that.
   */
  method LordUpdateTau(tau: seq<int>, K: int, i: int, last: bool, ghost rs: seq<bool>)
    returns (tau': seq<int>)
    requires 1 <= i == |rs| + 1
    requires K == CountTrue(rs + [last]) && tau == TauOf(Rejected(rs))
    ensures tau' == TauOf(Rejected(rs + [last]))
  {
    RejectedSnoc(rs, last);
    tau' := tau;
    if K <= 1 {
      if last {
        assert Rejected(rs) == [];
        tau' := tau'[0 := i - 1];
      }
    } else {
      if last {
        tau' := tau' + [i - 1];
      }
    }
  }

  /** The threshold of step i of version 1 from the updated tau and the count K. */
  method Lord1Threshold(gammai: seq<real>, w0: real, alpha: real, tau: seq<int>, K: int, i: int,
                        ghost rs: seq<bool>)
    returns (a: real)
    requires i == |rs| < |gammai|
    requires K == CountTrue(rs) && tau == TauOf(Rejected(rs))
    ensures a == Lord1Alpha(gammai, w0, alpha, rs)
  {
    ghost var ts := Rejected(rs);
    ghost var terms := GapTerms(gammai, i, rs);
    GapTermsAt(gammai, i, rs);
    if K <= 1 {
      assert tau[..K] == ts;
      var cjsum := GapSum(gammai, i, tau[..K], terms);
      a := LordLow(gammai[i], w0, alpha, cjsum);
    } else {
      var tau2 := tau[1..];
      assert tau2[..K - 1] == ts[1..];
      var cjsum := GapSum(gammai, i, tau2[..K - 1], terms[1..]);
      a := LordHigh(gammai[i], w0, alpha, gammai[i - tau[0] - 1], cjsum);
    }
  }

  /** The first threshold: gammai[0] * w0. */
  lemma Lord1First(gammai: seq<real>, w0: real, alpha: real)
    requires |gammai| >= 1
    ensures Lord1Alpha(gammai, w0, alpha, []) == gammai[0] * w0
  {
    assert Lord1Alpha(gammai, w0, alpha, []) == LordLow(gammai[0], w0, alpha, 0.0);
  }

  /** One step of lord_faster v1: the rejection times after R[i-1], then the threshold. */
  method Lord1Step(gammai: seq<real>, w0: real, alpha: real, tau: seq<int>, K: int, i: int, R: seq<bool>)
    returns (tau': seq<int>, a: real)
    requires 1 <= i == |R| < |gammai|
    requires K == CountTrue(R) && tau == TauOf(Rejected(R[..i - 1]))
    ensures tau' == TauOf(Rejected(R)) && a == Lord1Alpha(gammai, w0, alpha, R)
  {
    assert R == R[..i - 1] + [R[i - 1]];
    tau' := LordUpdateTau(tau, K, i, R[i - 1], R[..i - 1]);
    a := Lord1Threshold(gammai, w0, alpha, tau', K, i, R);
  }

  /**
   * lord_faster, version 1 (LORD++). The output columns alphai and R are
   * returned as sequences that grow by one entry per step.
   */
  method Lord1Faster(pval: seq<real>, gammai: seq<real>, alpha: real, w0: real)
    returns (alphai: seq<real>, R: seq<bool>)
    requires |pval| >= 1 && |gammai| >= |pval|
    ensures |alphai| == |pval| && |R| == |pval|
    ensures alphai[0] == gammai[0] * w0
    ensures forall k {:trigger alphai[k]} :: 0 <= k < |pval| ==> alphai[k] == Lord1Alpha(gammai, w0, alpha, R[..k])
    ensures forall k {:trigger alphai[k]} :: 0 <= k < |pval| ==> R[k] == (pval[k] <= alphai[k])
  {
    var N := |pval|;
    alphai := [gammai[0] * w0];
    R := [pval[0] <= alphai[0]];
    Lord1First(gammai, w0, alpha);
    var tau := [0];
    var K := B2I(R[0]);
    var i := 1;
    while i < N
      invariant 1 <= i <= N && |alphai| == i && |R| == i
      invariant K == CountTrue(R)
      invariant tau == TauOf(Rejected(R[..i - 1]))
      invariant forall k {:trigger alphai[k]} :: 0 <= k < i ==> alphai[k] == Lord1Alpha(gammai, w0, alpha, R[..k])
      invariant forall k {:trigger alphai[k]} :: 0 <= k < i ==> R[k] == (pval[k] <= alphai[k])
      invariant alphai[0] == gammai[0] * w0
    {
      var a;
      tau, a := Lord1Step(gammai, w0, alpha, tau, K, i, R);
      var b := pval[i] <= a;
      RejectedSnoc(R, b);
      Lord1Extend(pval, gammai, w0, alpha, alphai, R, a, b);
      alphai := alphai + [a];
      R := R + [b];
      K := K + B2I(b);
      i := i + 1;
    }
  }

  /** One more step of a LORD++ run keeps the recurrence on every prefix. */
  lemma Lord1Extend(pval: seq<real>, gammai: seq<real>, w0: real, alpha: real,
                    alphai: seq<real>, rs: seq<bool>, a: real, b: bool)
    requires |rs| == |alphai| < |pval| <= |gammai|
    requires forall k {:trigger alphai[k]} :: 0 <= k < |rs| ==> alphai[k] == Lord1Alpha(gammai, w0, alpha, rs[..k])
    requires forall k {:trigger alphai[k]} :: 0 <= k < |rs| ==> rs[k] == (pval[k] <= alphai[k])
    requires a == Lord1Alpha(gammai, w0, alpha, rs) && b == (pval[|rs|] <= a)
    ensures forall k {:trigger (alphai + [a])[k]} :: 0 <= k < |rs| + 1 ==>
              (alphai + [a])[k] == Lord1Alpha(gammai, w0, alpha, (rs + [b])[..k])
    ensures forall k {:trigger (alphai + [a])[k]} :: 0 <= k < |rs| + 1 ==> (rs + [b])[k] == (pval[k] <= (alphai + [a])[k])
  {
    PrefixOfSnoc(rs, b);
  }

  /** Every gamma index i - tau[j] - 1 of the LORD++ rule lies in [0, i-1]. */
  lemma Lord1GapIndexInRange(rs: seq<bool>, j: int)
    requires 0 <= j < CountTrue(rs)
    ensures 0 <= |rs| - Rejected(rs)[j] - 1 <= |rs| - 1
  {
  }

  /** Before any rejection LORD++ offers w0 * gammai[i]. */
  lemma Lord1NoRejection(gammai: seq<real>, w0: real, alpha: real, rs: seq<bool>)
    requires |rs| < |gammai| && CountTrue(rs) == 0
    ensures Lord1Alpha(gammai, w0, alpha, rs) == w0 * gammai[|rs|]
  {
  }

  /** The K <= 1 form is the K >= 2 form with nothing after the first term. */
  lemma LordLowIsHigh(g: real, w0: real, alpha: real, c: real)
    ensures LordLow(g, w0, alpha, c) == LordHigh(g, w0, alpha, c, 0.0)
  {
  }

  /**
   * The three branches of the source: no term gives w0 * g, one term adds
   * (a - w0) times it, two or more also add a times the sum of the rest.
   */
  lemma LordRuleCases(g: real, w0: real, a: real, terms: seq<real>)
    ensures |terms| == 0 ==> LordRule(g, w0, a, terms) == w0 * g
    ensures |terms| == 1 ==> LordRule(g, w0, a, terms) == LordLow(g, w0, a, terms[0])
    ensures |terms| >= 2 ==> LordRule(g, w0, a, terms) == LordHigh(g, w0, a, terms[0], Sum(terms[1..]))
  {
    if |terms| == 1 {
      assert terms[..0] == [];
      assert Sum(terms) == Sum(terms[..0]) + terms[0];
    }
  }

  /**
   * After at least one rejection, both branches of the source compute the
   * LORD++ formula w0*gammai[i] + (alpha - w0)*gammai[i - tau1 - 1]
   * + alpha * (sum over the later rejections tau_j of gammai[i - tau_j - 1]).
   */
  lemma Lord1Formula(gammai: seq<real>, w0: real, alpha: real, rs: seq<bool>)
    requires |rs| < |gammai| && CountTrue(rs) >= 1
    ensures Lord1Alpha(gammai, w0, alpha, rs) ==
            LordHigh(gammai[|rs|], w0, alpha, gammai[|rs| - Rejected(rs)[0] - 1],
                      Sum(GapTerms(gammai, |rs|, rs)[1..]))
  {
    var terms := GapTerms(gammai, |rs|, rs);
    GapTermsAt(gammai, |rs|, rs);
    if |terms| == 1 {
      assert terms[..0] == [];
      assert terms[1..] == [];
      LordLowIsHigh(gammai[|rs|], w0, alpha, terms[0]);
    }
  }

  // ---------------------------------------------------------------------
  // Version 2: LORD with discarding.

  /**
   * The discount values that the rejections among rs contribute at step i,
   * in rejection order: a rejection at t contributes gammai at the number of
   * selected p-values (at most taudiscard) in t+1..i-1.
   */
  function DiscardTerms(pval: seq<real>, gammai: seq<real>, taud: real, i: int, rs: seq<bool>): (r: seq<real>)
    requires |rs| <= i <= |pval| && i <= |gammai|
    ensures |r| == CountTrue(rs)
  {
    if |rs| == 0 then []
    else
      var n := |rs| - 1;
      DiscardTerms(pval, gammai, taud, i, rs[..n]) + (if rs[n] then [gammai[CountLe(pval, n + 1, i, taud)]] else [])
  }

  /** The j-th term belongs to the j-th rejection. */
  lemma {:induction false} DiscardTermsAt(pval: seq<real>, gammai: seq<real>, taud: real, i: int, rs: seq<bool>)
    requires |rs| <= i <= |pval| && i <= |gammai|
    ensures forall j :: 0 <= j < CountTrue(rs) ==>
              DiscardTerms(pval, gammai, taud, i, rs)[j] == gammai[CountLe(pval, Rejected(rs)[j] + 1, i, taud)]
  {
    if |rs| > 0 {
      var n := |rs| - 1;
      DiscardTermsAt(pval, gammai, taud, i, rs[..n]);
      assert rs == rs[..n] + [rs[n]];
      RejectedSnoc(rs[..n], rs[n]);
    }
  }

  /**
   * The discarding threshold at step i = |rs|: gammai[0] * w0 at step 0, and
   * afterwards the LORD rule in the discarded clock S[i-1] (the number of
   * selected p-values before i) with budget taudiscard * alpha, capped at
   * taudiscard.
   */
  function Lord2Alpha(pval: seq<real>, gammai: seq<real>, w0: real, alpha: real, taud: real,
                      rs: seq<bool>): real
    requires |rs| < |pval| && |rs| < |gammai|
  {
    var i := |rs|;
    if i == 0 then gammai[0] * w0
    else
      Min(taud, LordRule(gammai[CountLe(pval, 0, i, taud)], w0, taud * alpha,
                         DiscardTerms(pval, gammai, taud, i, rs)))
  }

  /**
   * The discount terms of step i as the source reads them. With K > 1 (and
   * K == 0) they are the DiscardTerms. With K == 1 the source reads
   * gammai[S[i-1] - kappaistar - 1], kappaistar counting the selected
   * p-values strictly before the rejection; None when that index is negative.
   */
  function Lord2Terms(pval: seq<real>, gammai: seq<real>, taud: real, i: int, rs: seq<bool>): Option<seq<real>>
    requires |rs| <= i <= |pval| && i <= |gammai|
  {
    if CountTrue(rs) == 1 then
      var idx := CountLe(pval, 0, i, taud) - CountLe(pval, 0, Rejected(rs)[0], taud) - 1;
      if idx < 0 then None else Some([gammai[idx]])
    else Some(DiscardTerms(pval, gammai, taud, i, rs))
  }

  /**
   * The discarding threshold at step i = |rs| as the source computes it:
   * gammai[0] * w0 at step 0, and afterwards the LORD rule on Lord2Terms,
   * capped at taudiscard; None when the K == 1 read is outside gammai.
   */
  function Lord2Written(pval: seq<real>, gammai: seq<real>, w0: real, alpha: real, taud: real,
                        rs: seq<bool>): Option<real>
    requires |rs| < |pval| && |rs| < |gammai|
  {
    var i := |rs|;
    if i == 0 then Some(gammai[0] * w0)
    else
      match Lord2Terms(pval, gammai, taud, i, rs)
      case None => None
      case Some(ts) => Some(Min(taud, LordRule(gammai[CountLe(pval, 0, i, taud)], w0, taud * alpha, ts)))
  }

  /** S = cumsum(selected): S[k] is the number of selected p-values in 0..k. */
  method Cumsum(selected: seq<bool>, ghost pval: seq<real>, taud: real) returns (S: seq<int>)
    requires |selected| == |pval|
    requires forall k {:trigger selected[k]} :: 0 <= k < |pval| ==> selected[k] == (pval[k] <= taud)
    ensures |S| == |pval|
    ensures forall k {:trigger S[k]} :: 0 <= k < |pval| ==> S[k] == CountLe(pval, 0, k + 1, taud)
  {
    S := [];
    var run := 0;
    var k := 0;
    while k < |selected|
      invariant 0 <= k <= |selected| && |S| == k
      invariant run == CountLe(pval, 0, k, taud)
      invariant forall m {:trigger S[m]} :: 0 <= m < k ==> S[m] == CountLe(pval, 0, m + 1, taud)
    {
      run := run + B2I(selected[k]);
      S := S + [run];
      k := k + 1;
    }
  }

  /** The number of selected p-values in 0..hi-1, as the K == 1 branch counts it. */
  method CountSelected(selected: seq<bool>, hi: int, ghost pval: seq<real>, taud: real) returns (c: int)
    requires |selected| == |pval| && 0 <= hi <= |pval|
    requires forall k {:trigger selected[k]} :: 0 <= k < |pval| ==> selected[k] == (pval[k] <= taud)
    ensures c == CountLe(pval, 0, hi, taud)
  {
    c := 0;
    var j := 0;
    while j < hi
      invariant 0 <= j <= hi
      invariant c == CountLe(pval, 0, j, taud)
    {
      c := c + B2I(selected[j]);
      j := j + 1;
    }
  }

  /**
   * kappaistar: for each listed rejection kappai[j], the number of selected
   * p-values in 0..kappai[j] inclusive, filled by one pass up to the last
   * rejection (the source's replacement for sapply).
   */
  method KappaStar(selected: seq<bool>, kappai: seq<int>, ghost pval: seq<real>, taud: real)
    returns (star: seq<int>)
    requires |selected| == |pval| && |kappai| >= 1 && Increasing(kappai)
    requires forall j :: 0 <= j < |kappai| ==> 0 <= kappai[j] < |pval|
    requires forall k {:trigger selected[k]} :: 0 <= k < |pval| ==> selected[k] == (pval[k] <= taud)
    ensures |star| == |kappai|
    ensures forall j :: 0 <= j < |kappai| ==> star[j] == CountLe(pval, 0, kappai[j] + 1, taud)
  {
    star := seq(|kappai|, _ => 0);
    var mysum := 0;
    var index := 0;
    var bound := kappai[|kappai| - 1];
    var k := 0;
    while k <= bound
      invariant 0 <= k <= bound + 1 && 0 <= index <= |kappai| && |star| == |kappai|
      invariant mysum == CountLe(pval, 0, k, taud)
      invariant forall j :: 0 <= j < index ==> kappai[j] < k
      invariant index < |kappai| ==> kappai[index] >= k
      invariant forall j :: 0 <= j < index ==> star[j] == CountLe(pval, 0, kappai[j] + 1, taud)
    {
      mysum := mysum + B2I(selected[k]);
      if index < |kappai| && kappai[index] == k {
        star := star[index := mysum];
        index := index + 1;
        if index < |kappai| {
          assert kappai[index - 1] < kappai[index];
        }
      }
      k := k + 1;
    }
  }

  /** Cjsum of the K > 1 branch: the sum of gammai[s - star[j]]. */
  method DiscardSum(gammai: seq<real>, s: int, star: seq<int>, ghost terms: seq<real>) returns (cjsum: real)
    requires |terms| == |star|
    requires forall j :: 0 <= j < |star| ==> 0 <= s - star[j] < |gammai| && terms[j] == gammai[s - star[j]]
    ensures cjsum == Sum(terms)
  {
    cjsum := 0.0;
    var j := 0;
    while j < |star|
      invariant 0 <= j <= |star|
      invariant cjsum == Sum(terms[..j])
    {
      SumSnoc(terms, j);
      cjsum := cjsum + gammai[s - star[j]];
      j := j + 1;
    }
    assert terms[..j] == terms;
  }

  /** The K > 1 branch of version 2: the LORD rule over the inclusive kappaistar counts. */
  method Lord2ManyTilde(pval: seq<real>, gammai: seq<real>, w0: real, alpha: real, taud: real,
                        selected: seq<bool>, s: int, kappai: seq<int>, K: int, i: int,
                        ghost rs: seq<bool>)
    returns (tilde: real)
    requires 1 <= i == |rs| < |pval| <= |gammai| && |selected| == |pval|
    requires forall k {:trigger selected[k]} :: 0 <= k < |pval| ==> selected[k] == (pval[k] <= taud)
    requires s == CountLe(pval, 0, i, taud)
    requires K == CountTrue(rs) && K > 1 && kappai == Rejected(rs)
    ensures tilde == LordRule(gammai[s], w0, taud * alpha, DiscardTerms(pval, gammai, taud, i, rs))
  {
    ghost var terms := DiscardTerms(pval, gammai, taud, i, rs);
    assert Increasing(kappai) by {
      RejectedExactly(rs);
    }
    var star := KappaStar(selected, kappai, pval, taud);
    forall j | 0 <= j < K
      ensures 0 <= s - star[j] < |gammai| && terms[j] == gammai[s - star[j]]
    {
      CountLeSplit(pval, 0, kappai[j] + 1, i, taud);
      DiscardTermsAt(pval, gammai, taud, i, rs);
    }
    var star2 := star[1..];
    var cjsum := DiscardSum(gammai, s, star2[..K - 1], terms[1..]);
    tilde := LordHigh(gammai[s], w0, taud * alpha, gammai[s - star[0]], cjsum);
  }

  /**
   * The K == 1 branch of version 2. It counts the selected p-values strictly
   * before the rejection and reads gammai at S[i-1] minus that count minus
   * one; ok is false when that index is negative.
   */
  method Lord2OneTilde(pval: seq<real>, gammai: seq<real>, w0: real, alpha: real, taud: real,
                       selected: seq<bool>, s: int, kappai: seq<int>, i: int,
                       ghost rs: seq<bool>)
    returns (tilde: real, ok: bool)
    requires 1 <= i == |rs| < |pval| <= |gammai| && |selected| == |pval|
    requires forall k {:trigger selected[k]} :: 0 <= k < |pval| ==> selected[k] == (pval[k] <= taud)
    requires s == CountLe(pval, 0, i, taud)
    requires CountTrue(rs) == 1 && kappai == Rejected(rs)
    ensures ok <==> Lord2Terms(pval, gammai, taud, i, rs).Some?
    ensures ok ==> tilde == LordRule(gammai[s], w0, taud * alpha, Lord2Terms(pval, gammai, taud, i, rs).value)
  {
    var ex := CountSelected(selected, kappai[0], pval, taud);
    ok := s - ex - 1 >= 0;
    if ok {
      LordRuleCases(gammai[s], w0, taud * alpha, [gammai[s - ex - 1]]);
      tilde := LordLow(gammai[s], w0, taud * alpha, gammai[s - ex - 1]);
    } else {
      tilde := 0.0;
    }
  }

  /**
   * The threshold of step i >= 1 of version 2: the branch on K, then the cap
   * at taudiscard; ok is false when the K == 1 read is outside gammai.
   */
  method Lord2Threshold(pval: seq<real>, gammai: seq<real>, w0: real, alpha: real, taud: real,
                        selected: seq<bool>, S: seq<int>, kappai: seq<int>, K: int, i: int,
                        ghost rs: seq<bool>)
    returns (a: real, ok: bool)
    requires 1 <= i == |rs| < |pval| <= |gammai| && |selected| == |pval| && |S| == |pval|
    requires forall k {:trigger selected[k]} :: 0 <= k < |pval| ==> selected[k] == (pval[k] <= taud)
    requires forall k {:trigger S[k]} :: 0 <= k < |pval| ==> S[k] == CountLe(pval, 0, k + 1, taud)
    requires K == CountTrue(rs) && kappai == TauOf(Rejected(rs))
    ensures ok <==> Lord2Written(pval, gammai, w0, alpha, taud, rs).Some?
    ensures ok ==> Lord2Written(pval, gammai, w0, alpha, taud, rs) == Some(a)
  {
    var s := S[i - 1];
    assert s == CountLe(pval, 0, i, taud);
    var tilde: real;
    ok := true;
    if K > 1 {
      tilde := Lord2ManyTilde(pval, gammai, w0, alpha, taud, selected, s, kappai, K, i, rs);
    } else if K == 1 {
      tilde, ok := Lord2OneTilde(pval, gammai, w0, alpha, taud, selected, s, kappai, i, rs);
    } else {
      tilde := w0 * gammai[s];
      assert tilde == LordLow(gammai[s], w0, taud * alpha, Sum(DiscardTerms(pval, gammai, taud, i, rs)));
    }
    a := Min(taud, tilde);
  }

  /** Step i >= 1 of version 2: the update of kappai with R[i-1], then the threshold. */
  method Lord2Step(pval: seq<real>, gammai: seq<real>, w0: real, alpha: real, taud: real,
                   selected: seq<bool>, S: seq<int>, kappai: seq<int>, K: int, i: int, R: seq<bool>)
    returns (kappai': seq<int>, a: real, ok: bool)
    requires 1 <= i == |R| < |pval| <= |gammai| && |selected| == |pval| && |S| == |pval|
    requires forall k {:trigger selected[k]} :: 0 <= k < |pval| ==> selected[k] == (pval[k] <= taud)
    requires forall k {:trigger S[k]} :: 0 <= k < |pval| ==> S[k] == CountLe(pval, 0, k + 1, taud)
    requires K == CountTrue(R) && kappai == TauOf(Rejected(R[..i - 1]))
    ensures kappai' == TauOf(Rejected(R))
    ensures ok <==> Lord2Written(pval, gammai, w0, alpha, taud, R).Some?
    ensures ok ==> Lord2Written(pval, gammai, w0, alpha, taud, R) == Some(a)
  {
    assert R == R[..i - 1] + [R[i - 1]];
    kappai' := LordUpdateTau(kappai, K, i, R[i - 1], R[..i - 1]);
    a, ok := Lord2Threshold(pval, gammai, w0, alpha, taud, selected, S, kappai', K, i, R);
  }

  /**
   * alphai and R follow the discarding recurrence on every prefix: each
   * threshold is Lord2Written of the decisions before it and each decision
   * is the test against that threshold.
   */
  ghost predicate IsLord2Run(pval: seq<real>, gammai: seq<real>, w0: real, alpha: real, taud: real,
                             alphai: seq<real>, R: seq<bool>)
    requires |alphai| == |R| <= |pval| <= |gammai|
  {
    var n := |R| - 1;
    |R| == 0 ||
    (IsLord2Run(pval, gammai, w0, alpha, taud, alphai[..n], R[..n]) &&
     Lord2Written(pval, gammai, w0, alpha, taud, R[..n]) == Some(alphai[n]) &&
     R[n] == (pval[n] <= alphai[n]))
  }

  /** A run states the recurrence at every index. */
  lemma {:induction false} IsLord2RunAt(pval: seq<real>, gammai: seq<real>, w0: real, alpha: real, taud: real,
                                        alphai: seq<real>, R: seq<bool>, k: int)
    requires |alphai| == |R| <= |pval| <= |gammai|
    requires IsLord2Run(pval, gammai, w0, alpha, taud, alphai, R) && 0 <= k < |R|
    ensures Lord2Written(pval, gammai, w0, alpha, taud, R[..k]) == Some(alphai[k])
    ensures R[k] == (pval[k] <= alphai[k])
  {
    var n := |R| - 1;
    if k < n {
      IsLord2RunAt(pval, gammai, w0, alpha, taud, alphai[..n], R[..n], k);
      assert R[..n][..k] == R[..k];
    }
  }

  /**
   * lord_faster, version 2 (discarding). The first test uses gammai[0] * w0
   * uncapped, so a first p-value in (taudiscard, gammai[0] * w0] is rejected
   * without being selected; the K == 1 branch of step 1 then reads
   * gammai[-1]. The model stops there with ok == false; on every other input
   * the run completes and follows the corrected rule Lord2Alpha.
   */
  method Lord2Faster(pval: seq<real>, gammai: seq<real>, alpha: real, w0: real, taud: real)
    returns (alphai: seq<real>, R: seq<bool>, ok: bool)
    requires |pval| >= 1 && |gammai| >= |pval|
    ensures 1 <= |alphai| == |R| <= |pval|
    ensures forall k {:trigger alphai[k]} :: 0 <= k < |R| ==>
              Lord2Written(pval, gammai, w0, alpha, taud, R[..k]) == Some(alphai[k])
    ensures forall k {:trigger alphai[k]} :: 0 <= k < |R| ==> R[k] == (pval[k] <= alphai[k])
    ensures ok <==> |R| == |pval|
    ensures !ok ==> Lord2Written(pval, gammai, w0, alpha, taud, R).None?
    ensures ok <==> (|pval| == 1 || !(taud < pval[0] <= gammai[0] * w0))
    ensures ok ==> forall k {:trigger alphai[k]} :: 0 <= k < |R| ==>
              alphai[k] == Lord2Alpha(pval, gammai, w0, alpha, taud, R[..k])
    ensures forall k {:trigger R[k]} :: 1 <= k < |R| && R[k] ==> pval[k] <= taud
  {
    var N := |pval|;
    alphai := [gammai[0] * w0];
    R := [pval[0] <= alphai[0]];
    var selected := seq(N, k requires 0 <= k < N => pval[k] <= taud);
    var S := Cumsum(selected, pval, taud);
    assert alphai[..0] == [] && R[..0] == [];
    assert IsLord2Run(pval, gammai, w0, alpha, taud, [], []);
    var kappai := [0];
    var K := B2I(R[0]);
    ok := true;
    while ok && |R| < N
      invariant Lord2State(pval, gammai, w0, alpha, taud, selected, S, alphai, R, kappai, K)
      invariant !ok ==> |R| < N && Lord2Written(pval, gammai, w0, alpha, taud, R).None?
      decreases N - |R| + (if ok then 1 else 0)
    {
      alphai, R, kappai, K, ok := Lord2Advance(pval, gammai, w0, alpha, taud, selected, S, alphai, R, kappai, K);
    }
    Lord2RunFacts(pval, gammai, w0, alpha, taud, alphai, R);
    Lord2Outcome(pval, gammai, w0, alpha, taud, alphai, R, ok);
  }

  /** The loop state of lord_faster version 2 after |R| steps. */
  ghost predicate Lord2State(pval: seq<real>, gammai: seq<real>, w0: real, alpha: real, taud: real,
                             selected: seq<bool>, S: seq<int>, alphai: seq<real>, R: seq<bool>,
                             kappai: seq<int>, K: int)
  {
    1 <= |R| == |alphai| <= |pval| <= |gammai| && |selected| == |pval| && |S| == |pval| &&
    (forall k {:trigger selected[k]} :: 0 <= k < |pval| ==> selected[k] == (pval[k] <= taud)) &&
    (forall k {:trigger S[k]} :: 0 <= k < |pval| ==> S[k] == CountLe(pval, 0, k + 1, taud)) &&
    K == CountTrue(R) && kappai == TauOf(Rejected(R[..|R| - 1])) &&
    IsLord2Run(pval, gammai, w0, alpha, taud, alphai, R)
  }

  /**
   * One iteration of the version 2 loop: kappai, the threshold and the
   * decision of step |R|, or ok == false and nothing changed when the
   * threshold reads outside gammai.
   */
  method Lord2Advance(pval: seq<real>, gammai: seq<real>, w0: real, alpha: real, taud: real,
                      selected: seq<bool>, S: seq<int>, alphai: seq<real>, R: seq<bool>,
                      kappai: seq<int>, K: int)
    returns (alphai': seq<real>, R': seq<bool>, kappai': seq<int>, K': int, ok: bool)
    requires Lord2State(pval, gammai, w0, alpha, taud, selected, S, alphai, R, kappai, K) && |R| < |pval|
    ensures Lord2State(pval, gammai, w0, alpha, taud, selected, S, alphai', R', kappai', K')
    ensures ok ==> |R'| == |R| + 1
    ensures !ok ==> R' == R && Lord2Written(pval, gammai, w0, alpha, taud, R).None?
  {
    var i := |R|;
    var a, kappai1;
    kappai1, a, ok := Lord2Step(pval, gammai, w0, alpha, taud, selected, S, kappai, K, i, R);
    if !ok {
      alphai', R', kappai', K' := alphai, R, kappai, K;
      return;
    }
    var b := pval[i] <= a;
    RejectedSnoc(R, b);
    assert (R + [b])[..i] == R && (alphai + [a])[..i] == alphai;
    alphai' := alphai + [a];
    R' := R + [b];
    kappai' := kappai1;
    K' := K + B2I(b);
  }

  /** The recurrence of a discarding run, index by index, and the taudiscard bound after step 0. */
  lemma Lord2RunFacts(pval: seq<real>, gammai: seq<real>, w0: real, alpha: real, taud: real,
                      alphai: seq<real>, R: seq<bool>)
    requires |alphai| == |R| <= |pval| <= |gammai|
    requires IsLord2Run(pval, gammai, w0, alpha, taud, alphai, R)
    ensures forall k {:trigger alphai[k]} :: 0 <= k < |R| ==>
              Lord2Written(pval, gammai, w0, alpha, taud, R[..k]) == Some(alphai[k])
    ensures forall k {:trigger alphai[k]} :: 0 <= k < |R| ==> R[k] == (pval[k] <= alphai[k])
    ensures forall k {:trigger R[k]} :: 1 <= k < |R| && R[k] ==> pval[k] <= taud
  {
    forall k | 0 <= k < |R|
      ensures Lord2Written(pval, gammai, w0, alpha, taud, R[..k]) == Some(alphai[k])
      ensures R[k] == (pval[k] <= alphai[k])
      ensures 1 <= k && R[k] ==> pval[k] <= taud
    {
      IsLord2RunAt(pval, gammai, w0, alpha, taud, alphai, R, k);
      if 1 <= k {
        Lord2WrittenCeiling(pval, gammai, w0, alpha, taud, R[..k]);
      }
    }
  }

  /**
   * How a discarding run ends: it stops early exactly on a first p-value in
   * (taudiscard, gammai[0] * w0] with more than one hypothesis, and a
   * complete run follows the corrected rule Lord2Alpha at every step.
   */
  lemma Lord2Outcome(pval: seq<real>, gammai: seq<real>, w0: real, alpha: real, taud: real,
                     alphai: seq<real>, R: seq<bool>, ok: bool)
    requires 1 <= |alphai| == |R| <= |pval| <= |gammai|
    requires alphai[0] == gammai[0] * w0
    requires forall k {:trigger alphai[k]} :: 0 <= k < |R| ==>
               Lord2Written(pval, gammai, w0, alpha, taud, R[..k]) == Some(alphai[k])
    requires forall k {:trigger alphai[k]} :: 0 <= k < |R| ==> R[k] == (pval[k] <= alphai[k])
    requires forall k {:trigger R[k]} :: 1 <= k < |R| && R[k] ==> pval[k] <= taud
    requires ok <==> |R| == |pval|
    requires !ok ==> Lord2Written(pval, gammai, w0, alpha, taud, R).None?
    ensures ok <==> (|pval| == 1 || !(taud < pval[0] <= gammai[0] * w0))
    ensures ok ==> forall k {:trigger alphai[k]} :: 0 <= k < |R| ==>
              alphai[k] == Lord2Alpha(pval, gammai, w0, alpha, taud, R[..k])
  {
    if !ok {
      Lord2NoneIsFirst(pval, gammai, w0, alpha, taud, alphai, R);
    } else if |pval| > 1 && taud < pval[0] <= gammai[0] * w0 {
      var a1 := alphai[1];
      assert R[..1] == [true];
      Lord2FirstUnselected(pval, gammai, w0, alpha, taud, R[..1]);
      assert false;
    } else {
      forall k | 0 <= k < |R|
        ensures alphai[k] == Lord2Alpha(pval, gammai, w0, alpha, taud, R[..k])
      {
        SelectedPrefix(pval, alphai, R, taud, k);
        Lord2WrittenIsCorrected(pval, gammai, w0, alpha, taud, R[..k]);
      }
    }
  }

  /** Every level after step 0 is capped, so only step 0 can reject an unselected p-value. */
  lemma Lord2WrittenCeiling(pval: seq<real>, gammai: seq<real>, w0: real, alpha: real, taud: real, rs: seq<bool>)
    requires 1 <= |rs| < |pval| && |rs| < |gammai|
    ensures Lord2Written(pval, gammai, w0, alpha, taud, rs).Some? ==>
            Lord2Written(pval, gammai, w0, alpha, taud, rs).value <= taud
  {
  }

  /**
   * The rejection listed first in a prefix of a run with one rejection is
   * selected, unless it is a step-0 rejection the first p-value above
   * taudiscard allows.
   */
  lemma SelectedPrefix(pval: seq<real>, alphai: seq<real>, R: seq<bool>, taud: real, k: int)
    requires |alphai| == |R| <= |pval| && 0 <= k < |R|
    requires forall j {:trigger R[j]} :: 1 <= j < |R| && R[j] ==> pval[j] <= taud
    requires k >= 1 && R[0] ==> pval[0] <= taud
    ensures CountTrue(R[..k]) == 1 ==> pval[Rejected(R[..k])[0]] <= taud
  {
    if CountTrue(R[..k]) == 1 {
      var t := Rejected(R[..k])[0];
      RejectedAreRejections(R[..k]);
      assert R[..k][t] == R[t];
    }
  }

  /** Where the run stops, its only rejection is the unselected first p-value. */
  lemma Lord2NoneIsFirst(pval: seq<real>, gammai: seq<real>, w0: real, alpha: real, taud: real,
                         alphai: seq<real>, R: seq<bool>)
    requires 1 <= |alphai| == |R| < |pval| <= |gammai|
    requires alphai[0] == gammai[0] * w0
    requires forall k {:trigger alphai[k]} :: 0 <= k < |R| ==> R[k] == (pval[k] <= alphai[k])
    requires forall k {:trigger R[k]} :: 1 <= k < |R| && R[k] ==> pval[k] <= taud
    requires Lord2Written(pval, gammai, w0, alpha, taud, R).None?
    ensures taud < pval[0] <= gammai[0] * w0
  {
    var i := |R|;
    assert CountTrue(R) == 1;
    var t := Rejected(R)[0];
    RejectedAreRejections(R);
    assert R[t];
    if pval[t] <= taud {
      Lord2SingleIndex(pval, taud, t, i);
      assert false;
    }
    assert t == 0;
    assert pval[0] <= alphai[0];
  }

  /** With the first p-value rejected but not selected, step 1 reads gammai[-1]. */
  lemma Lord2FirstUnselected(pval: seq<real>, gammai: seq<real>, w0: real, alpha: real, taud: real, rs: seq<bool>)
    requires 2 <= |pval| <= |gammai| && rs == [true] && taud < pval[0]
    ensures Lord2Written(pval, gammai, w0, alpha, taud, rs).None?
  {
    assert Rejected(rs) == [0] by {
      RejectedSnoc([], true);
      assert [] + [true] == rs;
    }
    assert CountLe(pval, 0, 1, taud) == 0 by {
      CountLeSnoc(pval, 0, 0, taud);
    }
  }

  /**
   * The corrected rule agrees with the source whenever the single rejection
   * of the K == 1 branch is selected: both then read gammai at the number of
   * selected p-values after it.
   */
  lemma Lord2WrittenIsCorrected(pval: seq<real>, gammai: seq<real>, w0: real, alpha: real, taud: real,
                                rs: seq<bool>)
    requires |rs| < |pval| && |rs| < |gammai|
    requires CountTrue(rs) == 1 ==> pval[Rejected(rs)[0]] <= taud
    ensures Lord2Written(pval, gammai, w0, alpha, taud, rs) == Some(Lord2Alpha(pval, gammai, w0, alpha, taud, rs))
  {
    if |rs| > 0 {
      Lord2TermsCorrected(pval, gammai, taud, |rs|, rs);
    }
  }

  /** With a selected single rejection, the K == 1 read agrees with DiscardTerms. */
  lemma Lord2TermsCorrected(pval: seq<real>, gammai: seq<real>, taud: real, i: int, rs: seq<bool>)
    requires |rs| <= i <= |pval| && i <= |gammai| && 0 < i
    requires CountTrue(rs) == 1 ==> pval[Rejected(rs)[0]] <= taud
    ensures Lord2Terms(pval, gammai, taud, i, rs) == Some(DiscardTerms(pval, gammai, taud, i, rs))
  {
    if CountTrue(rs) == 1 {
      var t := Rejected(rs)[0];
      RejectedAreRejections(rs);
      DiscardTermsAt(pval, gammai, taud, i, rs);
      Lord2SingleIndex(pval, taud, t, i);
      var terms := DiscardTerms(pval, gammai, taud, i, rs);
      assert terms == [gammai[CountLe(pval, t + 1, i, taud)]];
    }
  }

  /**
   * The disagreement of the two branches: for an unselected rejection t, the
   * K == 1 index S[i-1] - kappaistar - 1 is one below the K > 1 index
   * S[i-1] - kappaistar (the selected p-values after t).
   */
  lemma Lord2UnselectedIndex(pval: seq<real>, taud: real, t: int, i: int)
    requires 0 <= t < i <= |pval| && taud < pval[t]
    ensures CountLe(pval, 0, i, taud) - CountLe(pval, 0, t, taud) - 1
            == CountLe(pval, 0, i, taud) - CountLe(pval, 0, t + 1, taud) - 1
            == CountLe(pval, t + 1, i, taud) - 1
  {
    CountLeSplit(pval, 0, t + 1, i, taud);
    CountLeSnoc(pval, 0, t, taud);
  }

  /** From step 1 on, every corrected discarding threshold is at most taudiscard. */
  lemma Lord2Ceiling(pval: seq<real>, gammai: seq<real>, w0: real, alpha: real, taud: real, rs: seq<bool>)
    requires 1 <= |rs| < |pval| && |rs| < |gammai|
    ensures Lord2Alpha(pval, gammai, w0, alpha, taud, rs) <= taud
  {
  }

  /**
   * The K == 1 index of the source, S[i-1] minus the selected count before the
   * rejection t minus one, is the inclusive index S[i-1] - kappaistar of the
   * K > 1 branch whenever pval[t] is selected, and both count the selected
   * p-values in t+1..i-1.
   */
  lemma Lord2SingleIndex(pval: seq<real>, taud: real, t: int, i: int)
    requires 0 <= t < i <= |pval| && pval[t] <= taud
    ensures CountLe(pval, 0, i, taud) - CountLe(pval, 0, t, taud) - 1
            == CountLe(pval, 0, i, taud) - CountLe(pval, 0, t + 1, taud)
            == CountLe(pval, t + 1, i, taud)
  {
    CountLeSplit(pval, 0, t + 1, i, taud);
  }

  /** The discarded clock S[i-1] never exceeds i, so gammai[S[i-1]] is in range. */
  lemma Lord2ClockBound(pval: seq<real>, taud: real, i: int)
    requires 1 <= i <= |pval|
    ensures 0 <= CountLe(pval, 0, i, taud) <= i
  {
  }

  // ---------------------------------------------------------------------
  // Versions 3 and 4: LORD with wealth. Both work over the shifted decision
  // vector sh, where sh[0] is a sentinel rejection and sh[k + 1] is the
  // decision on pval[k]; dep selects version 4.

  /** The largest index j < |sh| with sh[j], or 0 if there is none. */
  function LastTrue(sh: seq<bool>): (t: nat)
    ensures |sh| >= 1 ==> t < |sh|
  {
    if |sh| == 0 then 0
    else if sh[|sh| - 1] then |sh| - 1
    else LastTrue(sh[..|sh| - 1])
  }

  /** With the sentinel set, LastTrue is the last set index. */
  lemma {:induction false} LastTrueIsLast(sh: seq<bool>)
    requires |sh| >= 1 && sh[0]
    ensures sh[LastTrue(sh)]
    ensures forall j :: LastTrue(sh) < j < |sh| ==> !sh[j]
  {
    if |sh| > 1 && !sh[|sh| - 1] {
      LastTrueIsLast(sh[..|sh| - 1]);
    }
  }

  /**
   * The shifted index whose decision earns b0 in the update W[k+1]: version 4
   * and the first update use the decision just made (k + 1); version 3 uses
   * sh[k - 1], the decision two steps back.
   */
  function Earn(dep: bool, k: nat): nat
  {
    if dep || k == 0 then k + 1 else k - 1
  }

  /** b0 times a logical value, as R[k] * b0 in the source: b0 for a rejection, 0 otherwise. */
  function Reward(b0: real, r: bool): real
  {
    if r then b0 else 0.0
  }

  /** The thresholds alphai[0..n-1] and the wealth W[0..n] after n steps. */
  /**
   * The threshold of step k = |hist| - 1, given the shifted decisions
   * hist = sh[0..k] and the wealth history W[0..k]: the wealth at the last
   * rejection t (the sentinel counts as one at 0) times gammai[k - t] in
   * version 3 and gammai[k] in version 4.
   */
  function Alpha34Of(dep: bool, gammai: seq<real>, hist: seq<bool>, W: seq<real>): real
    requires 1 <= |hist| == |W| <= |gammai|
  {
    var k := |hist| - 1;
    var t := LastTrue(hist);
    gammai[if dep then k else k - t] * W[t]
  }

  /**
   * The wealth history W[0..n] of versions 3 and 4 over the shifted decisions
   * sh = sh[0..n]: W[0] = w0, and W[k + 1] is W[k] minus the threshold of
   * step k plus b0 for the decision sh[Earn(k)].
   */
  function Wealth34(dep: bool, gammai: seq<real>, w0: real, b0: real, sh: seq<bool>): (W: seq<real>)
    requires 1 <= |sh| <= |gammai| + 1
    ensures |W| == |sh| && W[0] == w0
  {
    if |sh| == 1 then [w0]
    else
      var k := |sh| - 2;
      var p := Wealth34(dep, gammai, w0, b0, sh[..k + 1]);
      p + [p[k] - Alpha34Of(dep, gammai, sh[..k + 1], p) + Reward(b0, sh[Earn(dep, k)])]
  }

  /** The threshold of step k = |hist| - 1 from the shifted decisions hist = sh[0..k]. */
  function Alpha34(dep: bool, gammai: seq<real>, w0: real, b0: real, hist: seq<bool>): real
    requires 1 <= |hist| <= |gammai|
  {
    Alpha34Of(dep, gammai, hist, Wealth34(dep, gammai, w0, b0, hist))
  }

  /** Thresholds and shifted decisions of versions 3 and 4 agree with the recurrence up to |alphai|. */
  ghost predicate IsLord34Prefix(dep: bool, pval: seq<real>, gammai: seq<real>, w0: real, b0: real,
                                 alphai: seq<real>, sh: seq<bool>)
    requires |sh| == |alphai| + 1 && |alphai| <= |pval| <= |gammai|
  {
    forall k {:trigger alphai[k]} :: 0 <= k < |alphai| ==>
      alphai[k] == Alpha34(dep, gammai, w0, b0, sh[..k + 1]) && sh[k + 1] == (pval[k] <= alphai[k])
  }

  /** Appending the next threshold and decision keeps the recurrence. */
  lemma Lord34Extend(dep: bool, pval: seq<real>, gammai: seq<real>, w0: real, b0: real,
                     alphai: seq<real>, sh: seq<bool>, a: real, b: bool)
    requires |sh| == |alphai| + 1 && |alphai| < |pval| <= |gammai|
    requires IsLord34Prefix(dep, pval, gammai, w0, b0, alphai, sh)
    requires a == Alpha34(dep, gammai, w0, b0, sh) && b == (pval[|alphai|] <= a)
    ensures IsLord34Prefix(dep, pval, gammai, w0, b0, alphai + [a], sh + [b])
  {
    var al := alphai + [a];
    var s := sh + [b];
    forall k | 0 <= k < |al|
      ensures al[k] == Alpha34(dep, gammai, w0, b0, s[..k + 1]) && s[k + 1] == (pval[k] <= al[k])
    {
      if k < |alphai| {
        assert s[..k + 1] == sh[..k + 1];
      } else {
        assert s[..k + 1] == sh;
      }
    }
  }

  /** The source's tau after step i's push: its largest entry is the last set index of sh[0..i]. */
  method Lord34Tau(sh: seq<bool>, tau: seq<int>, i: int) returns (tau': seq<int>, taumax: int)
    requires 1 <= i && |sh| == i + 1
    requires |tau| >= 1 && tau[|tau| - 1] == LastTrue(sh[..i])
    requires forall j :: 0 <= j < |tau| ==> tau[j] <= tau[|tau| - 1]
    ensures |tau'| >= 1 && tau'[|tau'| - 1] == LastTrue(sh) == taumax
    ensures forall j :: 0 <= j < |tau'| ==> tau'[j] <= tau'[|tau'| - 1]
  {
    tau' := tau;
    if sh[i] {
      tau' := tau' + [i];
    }
    assert sh[..i] == sh[..|sh| - 1];
    taumax := MaxOf(tau');
  }

  /** Appending a decision appends one wealth entry: W[k] minus the threshold of step k plus the reward. */
  lemma Wealth34Snoc(dep: bool, gammai: seq<real>, w0: real, b0: real, sh: seq<bool>, b: bool)
    requires 1 <= |sh| <= |gammai|
    ensures Wealth34(dep, gammai, w0, b0, sh + [b]) ==
            Wealth34(dep, gammai, w0, b0, sh) +
            [Wealth34(dep, gammai, w0, b0, sh)[|sh| - 1] - Alpha34(dep, gammai, w0, b0, sh) +
             Reward(b0, (sh + [b])[Earn(dep, |sh| - 1)])]
  {
    assert (sh + [b])[..|sh|] == sh;
  }

  /** The threshold and decision of step i of versions 3 and 4. */
  method Lord34Threshold(dep: bool, pval: seq<real>, gammai: seq<real>, w0: real, b0: real,
                         sh: seq<bool>, W: seq<real>, taumax: int, i: int)
    returns (a: real, b: bool)
    requires 1 <= i < |pval| <= |gammai| && |sh| == i + 1
    requires W == Wealth34(dep, gammai, w0, b0, sh) && taumax == LastTrue(sh)
    ensures a == Alpha34(dep, gammai, w0, b0, sh) && b == (pval[i] <= a)
  {
    var g := if dep then gammai[i] else gammai[i - taumax];
    assert g == gammai[if dep then |sh| - 1 else |sh| - 1 - LastTrue(sh)];
    a := g * W[taumax];
    b := pval[i] <= a;
  }

  /** The wealth update W[i + 1] = W[i] - phi + b0 * R[...] of step i, with phi the threshold just spent. */
  method Lord34Wealth(dep: bool, gammai: seq<real>, w0: real, b0: real,
                      sh: seq<bool>, W: seq<real>, phi: real, b: bool, i: int)
    returns (w: real)
    requires 1 <= i < |gammai| && |sh| == i + 1
    requires W == Wealth34(dep, gammai, w0, b0, sh) && phi == Alpha34(dep, gammai, w0, b0, sh)
    ensures W + [w] == Wealth34(dep, gammai, w0, b0, sh + [b])
  {
    if dep {
      w := W[i] - phi + Reward(b0, b);
    } else {
      w := W[i] - phi + Reward(b0, sh[i - 1]);
    }
    Wealth34Snoc(dep, gammai, w0, b0, sh, b);
    assert (sh + [b])[Earn(dep, i)] == if dep then b else sh[i - 1];
  }

  /**
   * lord_faster, versions 3 (dep false) and 4 (dep true). The source's R of
   * length N + 1 with the sentinel is sh; the result is sh without it.
   */
  method Lord34Faster(pval: seq<real>, gammai: seq<real>, w0: real, b0: real, dep: bool)
    returns (alphai: seq<real>, R: seq<bool>)
    requires |pval| >= 1 && |gammai| >= |pval|
    ensures |alphai| == |pval| && |R| == |pval|
    ensures forall k {:trigger alphai[k]} :: 0 <= k < |pval| ==>
              alphai[k] == Alpha34(dep, gammai, w0, b0, [true] + R[..k])
    ensures forall k {:trigger alphai[k]} :: 0 <= k < |pval| ==> R[k] == (pval[k] <= alphai[k])
  {
    var N := |pval|;
    alphai := [gammai[0] * w0];
    var phi := gammai[0] * w0;
    var sh := [true, pval[0] <= alphai[0]];
    var W := [w0, w0 - phi + Reward(b0, sh[1])];
    assert sh[..1] == [true];
    Wealth34Snoc(dep, gammai, w0, b0, [true], sh[1]);
    assert [true] + [sh[1]] == sh;
    assert LastTrue([true]) == 0 && Wealth34(dep, gammai, w0, b0, [true]) == [w0];
    assert Alpha34(dep, gammai, w0, b0, [true]) == phi;
    var tau := [0];
    while |alphai| < N
      invariant Lord34State(dep, pval, gammai, w0, b0, alphai, sh, W, tau)
      decreases N - |alphai|
    {
      alphai, sh, W, tau := Lord34Advance(dep, pval, gammai, w0, b0, alphai, sh, W, tau);
    }
    R := sh[1..];
    Lord34Rows(dep, pval, gammai, w0, b0, alphai, sh, R);
  }

  /** The loop state of lord_faster versions 3 and 4 after |alphai| steps. */
  ghost predicate Lord34State(dep: bool, pval: seq<real>, gammai: seq<real>, w0: real, b0: real,
                              alphai: seq<real>, sh: seq<bool>, W: seq<real>, tau: seq<int>)
  {
    1 <= |alphai| <= |pval| <= |gammai| && |sh| == |alphai| + 1 && sh[0] &&
    W == Wealth34(dep, gammai, w0, b0, sh) &&
    IsLord34Prefix(dep, pval, gammai, w0, b0, alphai, sh) &&
    |tau| >= 1 && tau[|tau| - 1] == LastTrue(sh[..|alphai|]) &&
    forall j :: 0 <= j < |tau| ==> tau[j] <= tau[|tau| - 1]
  }

  /** One iteration of the versions 3 and 4 loop: tau, the threshold, the decision and the wealth of step i. */
  method Lord34Advance(dep: bool, pval: seq<real>, gammai: seq<real>, w0: real, b0: real,
                       alphai: seq<real>, sh: seq<bool>, W: seq<real>, tau: seq<int>)
    returns (alphai': seq<real>, sh': seq<bool>, W': seq<real>, tau': seq<int>)
    requires Lord34State(dep, pval, gammai, w0, b0, alphai, sh, W, tau) && |alphai| < |pval|
    ensures Lord34State(dep, pval, gammai, w0, b0, alphai', sh', W', tau') && |alphai'| == |alphai| + 1
  {
    var i := |alphai|;
    var taumax, a, b, w;
    tau', taumax := Lord34Tau(sh, tau, i);
    a, b := Lord34Threshold(dep, pval, gammai, w0, b0, sh, W, taumax, i);
    var phi := a;
    w := Lord34Wealth(dep, gammai, w0, b0, sh, W, phi, b, i);
    Lord34Extend(dep, pval, gammai, w0, b0, alphai, sh, a, b);
    assert (sh + [b])[..i + 1] == sh;
    alphai' := alphai + [a];
    sh' := sh + [b];
    W' := W + [w];
  }

  /** The shifted run read without its sentinel: the rows of Lord34Faster's postcondition. */
  lemma Lord34Rows(dep: bool, pval: seq<real>, gammai: seq<real>, w0: real, b0: real,
                   alphai: seq<real>, sh: seq<bool>, R: seq<bool>)
    requires |sh| == |alphai| + 1 && |alphai| <= |pval| <= |gammai| && sh[0]
    requires IsLord34Prefix(dep, pval, gammai, w0, b0, alphai, sh) && R == sh[1..]
    ensures forall k {:trigger alphai[k]} :: 0 <= k < |alphai| ==>
              alphai[k] == Alpha34(dep, gammai, w0, b0, [true] + R[..k]) && R[k] == (pval[k] <= alphai[k])
  {
    forall k | 0 <= k < |alphai|
      ensures alphai[k] == Alpha34(dep, gammai, w0, b0, [true] + R[..k]) && R[k] == (pval[k] <= alphai[k])
    {
      assert [true] + R[..k] == sh[..k + 1];
      assert alphai[k] == Alpha34(dep, gammai, w0, b0, sh[..k + 1]);
    }
  }

  /** The first threshold of versions 3 and 4 is gammai[0] * w0. */
  lemma Lord34First(dep: bool, gammai: seq<real>, w0: real, b0: real)
    requires |gammai| >= 1
    ensures Alpha34(dep, gammai, w0, b0, [true]) == gammai[0] * w0
  {
    assert LastTrue([true]) == 0;
  }

  /**
   * The wealth index taumax lies in [0, k], so the version-3 discount index
   * k - taumax does too; taumax is a rejection (or the sentinel) with no
   * rejection after it.
   */
  lemma Lord34TaumaxRange(hist: seq<bool>)
    requires |hist| >= 1 && hist[0]
    ensures 0 <= LastTrue(hist) <= |hist| - 1
    ensures 0 <= |hist| - 1 - LastTrue(hist) <= |hist| - 1
    ensures hist[LastTrue(hist)]
    ensures forall j :: LastTrue(hist) < j < |hist| ==> !hist[j]
  {
    LastTrueIsLast(hist);
  }

  /** Until the first rejection both versions offer gammai[k] * w0. */
  lemma Lord34NoRejection(dep: bool, gammai: seq<real>, w0: real, b0: real, hist: seq<bool>)
    requires 1 <= |hist| <= |gammai| && hist[0]
    requires forall j :: 1 <= j < |hist| ==> !hist[j]
    ensures Alpha34(dep, gammai, w0, b0, hist) == gammai[|hist| - 1] * w0
  {
    LastTrueIsLast(hist);
  }

  /** The total spent by the first |sh| - 1 thresholds of versions 3 and 4. */
  function Spent34(dep: bool, gammai: seq<real>, w0: real, b0: real, sh: seq<bool>): real
    requires 1 <= |sh| <= |gammai| + 1
  {
    if |sh| == 1 then 0.0
    else Spent34(dep, gammai, w0, b0, sh[..|sh| - 1]) + Alpha34(dep, gammai, w0, b0, sh[..|sh| - 1])
  }

  /** The last wealth entry in terms of the history one step shorter. */
  lemma Wealth34Last(dep: bool, gammai: seq<real>, w0: real, b0: real, sh: seq<bool>)
    requires 2 <= |sh| <= |gammai| + 1
    ensures Wealth34(dep, gammai, w0, b0, sh)[|sh| - 1] ==
            Wealth34(dep, gammai, w0, b0, sh[..|sh| - 1])[|sh| - 2] -
            Alpha34(dep, gammai, w0, b0, sh[..|sh| - 1]) + Reward(b0, sh[Earn(dep, |sh| - 2)])
  {
  }

  /** b0 earned c times, that is b0 * c. */
  function Earned(b0: real, c: nat): real
  {
    if c == 0 then 0.0 else Earned(b0, c - 1) + b0
  }

  /** Earning once more adds the reward for r. */
  lemma EarnedSnoc(b0: real, c: nat, r: bool)
    ensures Earned(b0, c + B2I(r)) == Earned(b0, c) + Reward(b0, r)
  {
  }

  /**
   * Wealth balance of version 4: W[n] is w0 minus everything spent plus b0
   * per rejection among the first n decisions sh[1..n].
   */
  lemma {:induction false} Wealth4Balance(gammai: seq<real>, w0: real, b0: real, sh: seq<bool>)
    requires 1 <= |sh| <= |gammai| + 1
    ensures Wealth34(true, gammai, w0, b0, sh)[|sh| - 1] ==
            w0 - Spent34(true, gammai, w0, b0, sh) + Earned(b0, CountTrue(sh[1..]))
  {
    var n := |sh| - 1;
    if n > 0 {
      var s' := sh[..n];
      Wealth4Balance(gammai, w0, b0, s');
      Wealth34Last(true, gammai, w0, b0, sh);
      assert sh[1..][..n - 1] == s'[1..];
      EarnedSnoc(b0, CountTrue(s'[1..]), sh[n]);
    }
  }

  /**
   * Wealth balance of version 3: the reward lags, so W[n] (n >= 1) earns b0
   * for the first decision sh[1] and then for sh[0..n-2], which includes the
   * sentinel sh[0] once n >= 2.
   */
  lemma {:induction false} Wealth3Balance(gammai: seq<real>, w0: real, b0: real, sh: seq<bool>)
    requires 2 <= |sh| <= |gammai| + 1
    ensures Wealth34(false, gammai, w0, b0, sh)[|sh| - 1] ==
            w0 - Spent34(false, gammai, w0, b0, sh) + Earned(b0, B2I(sh[1]) + CountTrue(sh[..|sh| - 2]))
  {
    var n := |sh| - 1;
    var s' := sh[..n];
    Wealth34Last(false, gammai, w0, b0, sh);
    if n == 1 {
      assert s' == [sh[0]] && Wealth34(false, gammai, w0, b0, s') == [w0];
      assert Spent34(false, gammai, w0, b0, sh) == Alpha34(false, gammai, w0, b0, s');
    } else {
      Wealth3Balance(gammai, w0, b0, s');
      assert s'[1] == sh[1] && s'[..n - 2] == sh[..n - 2];
      assert sh[..n - 1][..n - 2] == sh[..n - 2];
      var c := B2I(sh[1]) + CountTrue(sh[..n - 2]);
      assert B2I(sh[1]) + CountTrue(sh[..n - 1]) == c + B2I(sh[n - 2]);
      EarnedSnoc(b0, c, sh[n - 2]);
      BalanceStep(w0, Wealth34(false, gammai, w0, b0, sh)[n], Wealth34(false, gammai, w0, b0, s')[n - 1],
                  Alpha34(false, gammai, w0, b0, s'), Reward(b0, sh[n - 2]),
                  Spent34(false, gammai, w0, b0, sh), Spent34(false, gammai, w0, b0, s'),
                  Earned(b0, c + B2I(sh[n - 2])), Earned(b0, c));
    }
  }

  /** One step of a wealth balance: spend a, earn r. */
  lemma BalanceStep(w0: real, w: real, wp: real, a: real, r: real, s: real, sp: real, e: real, ep: real)
    requires wp == w0 - sp + ep
    requires w == wp - a + r
    requires s == sp + a
    requires e == ep + r
    ensures w == w0 - s + e
  {
  }
}
