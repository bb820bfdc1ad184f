/*
 * ADDIS spending rules (addis_spending_faster, addis_spending_dep_faster):
 * a fixed spending schedule in which the discount sequence advances only on
 * "selected non-candidates", the earlier p-values in (lambda, tau]. The
 * thresholds never look at the decisions.
 *
 * The parameter lam is the source's lambda.
 */
module AddisSpending {
  import opened Common

  /** alpha * (tau - lambda) * g: the threshold paid out of discount term g. */
  function SpendValue(alpha: real, lam: real, tau: real, g: real): real
  {
    alpha * (tau - lam) * g
  }

  /** selectsum - candsum at step i: the earlier p-values in (lambda, tau]. */
  function SpendIndex(pval: seq<real>, lam: real, tau: real, i: int): (m: nat)
    requires 0 <= i <= |pval|
    ensures m <= i
  {
    CountIn(pval, 0, i, lam, tau)
  }

  /** The spending threshold at step i. */
  function SpendAlpha(pval: seq<real>, gammai: seq<real>, alpha: real, lam: real, tau: real,
                      i: int): real
    requires 0 <= i < |pval| && |gammai| >= |pval|
  {
    SpendValue(alpha, lam, tau, gammai[SpendIndex(pval, lam, tau, i)])
  }

  /**
   * addis_spending_faster. The running counters selectsum and candsum count
   * the earlier p-values at or below tau and at or below lambda.
   */
  method AddisSpendingFaster(pval: seq<real>, gammai: seq<real>, alpha: real, lam: real, tau: real)
    returns (alphai: array<real>, R: array<bool>)
    requires |pval| >= 1 && |gammai| >= |pval|
    requires lam <= tau
    ensures alphai.Length == |pval| && R.Length == |pval|
    ensures alphai[0] == SpendValue(alpha, lam, tau, gammai[0])
    ensures forall k {:trigger alphai[k]} :: 0 <= k < |pval| ==> alphai[k] == SpendAlpha(pval, gammai, alpha, lam, tau, k)
    ensures forall k {:trigger R[k]} :: 0 <= k < |pval| ==> R[k] == (pval[k] <= alphai[k])
  {
    var N := |pval|;
    alphai := new real[N];
    R := new bool[N];
    alphai[0] := SpendValue(alpha, lam, tau, gammai[0]);
    R[0] := pval[0] <= alphai[0];
    var selectsum := B2I(pval[0] <= tau);
    var candsum := B2I(pval[0] <= lam);
    var i := 1;
    while i < N
      invariant 1 <= i <= N
      invariant selectsum == CountLe(pval, 0, i, tau)
      invariant candsum == CountLe(pval, 0, i, lam)
      invariant forall k {:trigger alphai[k]} :: 0 <= k < i ==> alphai[k] == SpendAlpha(pval, gammai, alpha, lam, tau, k)
      invariant forall k {:trigger R[k]} :: 0 <= k < i ==> R[k] == (pval[k] <= alphai[k])
    {
      CountLeDifference(pval, 0, i, lam, tau);
      alphai[i] := SpendValue(alpha, lam, tau, gammai[selectsum - candsum]);
      R[i] := pval[i] <= alphai[i];
      selectsum := selectsum + B2I(pval[i] <= tau);
      candsum := candsum + B2I(pval[i] <= lam);
      i := i + 1;
    }
  }

  /** The index advances by one exactly on a p-value in (lambda, tau] and otherwise stays. */
  lemma SpendIndexStep(pval: seq<real>, lam: real, tau: real, i: int)
    requires 0 <= i < |pval|
    ensures SpendIndex(pval, lam, tau, i + 1) ==
            SpendIndex(pval, lam, tau, i) + (if lam < pval[i] <= tau then 1 else 0)
  {
  }

  /** The schedule only moves forward: later steps use later discount terms. */
  lemma {:induction false} SpendIndexMonotone(pval: seq<real>, lam: real, tau: real, i: int, j: int)
    requires 0 <= i <= j <= |pval|
    ensures SpendIndex(pval, lam, tau, i) <= SpendIndex(pval, lam, tau, j)
    decreases j - i
  {
    if i < j {
      SpendIndexMonotone(pval, lam, tau, i, j - 1);
      SpendIndexStep(pval, lam, tau, j - 1);
    }
  }

  /**
   * With a non-increasing discount sequence and a non-negative scale, the
   * spending thresholds never increase.
   */
  lemma SpendThresholdsNonIncreasing(pval: seq<real>, gammai: seq<real>, alpha: real,
                                     lam: real, tau: real, i: int, j: int)
    requires 0 <= i <= j < |pval| && |gammai| >= |pval|
    requires alpha >= 0.0 && lam <= tau
    requires forall a, b :: 0 <= a <= b < |gammai| ==> gammai[b] <= gammai[a]
    ensures SpendAlpha(pval, gammai, alpha, lam, tau, j) <= SpendAlpha(pval, gammai, alpha, lam, tau, i)
  {
    SpendIndexMonotone(pval, lam, tau, i, j);
    var gi := gammai[SpendIndex(pval, lam, tau, i)];
    var gj := gammai[SpendIndex(pval, lam, tau, j)];
    assert gj <= gi;
    ScaledOrder(alpha, tau - lam, gj, gi);
  }

  /** a * d * x <= a * d * y when a, d >= 0 and x <= y. */
  lemma ScaledOrder(a: real, d: real, x: real, y: real)
    requires a >= 0.0 && d >= 0.0 && x <= y
    ensures a * d * x <= a * d * y
  {
    var c := a * d;
    assert c >= 0.0;
    assert c * y - c * x == c * (y - x);
  }

  /**
   * The thresholds paid at the selected non-candidates among the first n
   * hypotheses (p in (lambda, tau]).
   */
  function Spent(pval: seq<real>, gammai: seq<real>, alpha: real, lam: real, tau: real, n: int): real
    requires 0 <= n <= |pval| && |gammai| >= |pval|
  {
    if n == 0 then 0.0
    else Spent(pval, gammai, alpha, lam, tau, n - 1) +
         (if lam < pval[n - 1] <= tau then SpendAlpha(pval, gammai, alpha, lam, tau, n - 1) else 0.0)
  }

  /**
   * The spending identity: the selected non-candidates consume the discount
   * sequence in order, so together they pay exactly
   * alpha * (tau - lambda) * (gammai[0] + ... + gammai[m-1]) with m of them.
   */
  lemma {:induction false} SpentIsDiscountPrefix(pval: seq<real>, gammai: seq<real>, alpha: real,
                                                 lam: real, tau: real, n: int)
    requires 0 <= n <= |pval| && |gammai| >= |pval|
    ensures Spent(pval, gammai, alpha, lam, tau, n) ==
            alpha * (tau - lam) * Sum(gammai[..SpendIndex(pval, lam, tau, n)])
  {
    var c := alpha * (tau - lam);
    if n == 0 {
      assert gammai[..0] == [];
    } else {
      SpentIsDiscountPrefix(pval, gammai, alpha, lam, tau, n - 1);
      var m := SpendIndex(pval, lam, tau, n - 1);
      SpendIndexStep(pval, lam, tau, n - 1);
      if lam < pval[n - 1] <= tau {
        SumSnoc(gammai, m);
        assert c * (Sum(gammai[..m]) + gammai[m]) == c * Sum(gammai[..m]) + c * gammai[m];
      }
    }
  }

  /** Prefix sums of a non-negative sequence grow with the prefix. */
  lemma {:induction false} SumPrefixMonotone(s: seq<real>, m: int, n: int)
    requires 0 <= m <= n <= |s|
    requires forall k :: 0 <= k < |s| ==> s[k] >= 0.0
    ensures Sum(s[..m]) <= Sum(s[..n])
    decreases n - m
  {
    if m < n {
      SumPrefixMonotone(s, m, n - 1);
      SumSnoc(s, n - 1);
    }
  }

  /**
   * The budget bound: with non-negative discount terms summing to at most 1,
   * a non-negative scale and lambda <= tau, the selected non-candidates pay at
   * most alpha * (tau - lambda) in total.
   */
  lemma SpentWithinBudget(pval: seq<real>, gammai: seq<real>, alpha: real, lam: real, tau: real, n: int)
    requires 0 <= n <= |pval| && |gammai| >= |pval|
    requires alpha >= 0.0 && lam <= tau
    requires forall k :: 0 <= k < |gammai| ==> gammai[k] >= 0.0
    requires Sum(gammai) <= 1.0
    ensures Spent(pval, gammai, alpha, lam, tau, n) <= alpha * (tau - lam)
  {
    var m := SpendIndex(pval, lam, tau, n);
    SpentIsDiscountPrefix(pval, gammai, alpha, lam, tau, n);
    PrefixSumAtMostOne(gammai, m);
    ScaledBudget(Spent(pval, gammai, alpha, lam, tau, n), alpha, tau - lam, Sum(gammai[..m]));
  }

  /** Every prefix of a non-negative sequence summing to at most 1 sums to at most 1. */
  lemma PrefixSumAtMostOne(s: seq<real>, m: int)
    requires 0 <= m <= |s|
    requires forall k :: 0 <= k < |s| ==> s[k] >= 0.0
    requires Sum(s) <= 1.0
    ensures Sum(s[..m]) <= 1.0
  {
    SumPrefixMonotone(s, m, |s|);
    assert s[..|s|] == s;
  }

  /** x = a * d * s is at most a * d when a, d >= 0 and s <= 1. */
  lemma ScaledBudget(x: real, a: real, d: real, s: real)
    requires x == a * d * s && a >= 0.0 && d >= 0.0 && s <= 1.0
    ensures x <= a * d
  {
    ScaledOrder(a, d, s, 1.0);
  }

  // ---------------------------------------------------------------------
  // Dependent spending: the counts only see a window that ends lag L[i]
  // before step i.

  /**
   * The window of step i is [0, DepHi): the inner loop runs j = 0 .. i - L[i]
   * only when i - L[i] > 0, and when L[i] == 0 index i is read before it is
   * written, so it never contributes.
   */
  function DepHi(L: seq<int>, i: int): (h: int)
    requires 0 <= i < |L| && L[i] >= 0
    ensures 0 <= h <= i
  {
    if i - L[i] > 0 then MinInt(i - L[i] + 1, i) else 0
  }

  /** The dependent gamma index 1 + min(L[i]-1, i-1) + selectsum - candsum. */
  function DepIndex(pval: seq<real>, L: seq<int>, lam: real, tau: real, i: int): (m: int)
    requires 0 <= i < |pval| && |L| >= |pval| && L[i] >= 0
    ensures 0 <= m <= i + 1
  {
    1 + MinInt(L[i] - 1, i - 1) + CountIn(pval, 0, DepHi(L, i), lam, tau)
  }

  /** The dependent spending threshold at step i. */
  function DepAlpha(pval: seq<real>, L: seq<int>, gammai: seq<real>, alpha: real, lam: real,
                    tau: real, i: int): real
    requires 0 <= i < |pval| && |L| >= |pval| && L[i] >= 0 && |gammai| > |pval|
  {
    SpendValue(alpha, lam, tau, gammai[DepIndex(pval, L, lam, tau, i)])
  }

  /**
   * The inner counting loop of step i (run only when maxL = i - L[i] > 0): it
   * reads select[0..maxL] and cand[0..maxL], where entries below i hold the
   * earlier selections and entry i is still unset.
   */
  method CountWindow(pval: seq<real>, select: seq<bool>, cand: seq<bool>, i: int, maxL: int,
                     lam: real, tau: real)
    returns (selectsum: int, candsum: int)
    requires |select| == |pval| && |cand| == |pval|
    requires 0 < maxL <= i < |pval|
    requires forall j :: 0 <= j < i ==> select[j] == (pval[j] <= tau) && cand[j] == (pval[j] <= lam)
    requires !select[i] && !cand[i]
    ensures selectsum == CountLe(pval, 0, MinInt(maxL + 1, i), tau)
    ensures candsum == CountLe(pval, 0, MinInt(maxL + 1, i), lam)
  {
    selectsum := 0;
    candsum := 0;
    var j := 0;
    while j <= maxL
      invariant 0 <= j <= maxL + 1
      invariant selectsum == CountLe(pval, 0, MinInt(j, i), tau)
      invariant candsum == CountLe(pval, 0, MinInt(j, i), lam)
    {
      if select[j] {
        selectsum := selectsum + 1;
      }
      if cand[j] {
        candsum := candsum + 1;
      }
      j := j + 1;
    }
  }

  /** The gamma index of step i >= 1, computed from the recorded select and cand flags. */
  method DepGammaIndex(pval: seq<real>, L: seq<int>, select: seq<bool>, cand: seq<bool>, i: int,
                       lam: real, tau: real)
    returns (m: int)
    requires |select| == |pval| && |cand| == |pval| && |L| >= |pval|
    requires 1 <= i < |pval| && L[i] >= 0 && lam <= tau
    requires forall j :: 0 <= j < i ==> select[j] == (pval[j] <= tau) && cand[j] == (pval[j] <= lam)
    requires !select[i] && !cand[i]
    ensures m == DepIndex(pval, L, lam, tau, i)
  {
    var selectsum := 0;
    var candsum := 0;
    var maxL := MaxInt(0, i - L[i]);
    if maxL > 0 {
      selectsum, candsum := CountWindow(pval, select, cand, i, maxL, lam, tau);
    }
    CountLeDifference(pval, 0, DepHi(L, i), lam, tau);
    m := 1 + MinInt(L[i] - 1, i - 1) + selectsum - candsum;
  }

  /**
   * addis_spending_dep_faster. The select and cand flags are recorded only
   * after the decision at step i, so step i never counts itself.
   */
  method AddisSpendingDepFaster(pval: seq<real>, L: seq<int>, gammai: seq<real>, alpha: real,
                                lam: real, tau: real)
    returns (alphai: array<real>, R: array<bool>)
    requires |pval| >= 1 && |L| >= |pval| && |gammai| > |pval|
    requires forall k :: 0 <= k < |pval| ==> L[k] >= 0
    requires lam <= tau
    ensures alphai.Length == |pval| && R.Length == |pval|
    ensures alphai[0] == SpendValue(alpha, lam, tau, gammai[0])
    ensures forall k {:trigger alphai[k]} :: 0 <= k < |pval| ==> alphai[k] == DepAlpha(pval, L, gammai, alpha, lam, tau, k)
    ensures forall k {:trigger R[k]} :: 0 <= k < |pval| ==> R[k] == (pval[k] <= alphai[k])
  {
    var N := |pval|;
    alphai := new real[N];
    R := new bool[N];
    var select := seq(N, _ => false);
    var cand := seq(N, _ => false);
    alphai[0] := SpendValue(alpha, lam, tau, gammai[0]);
    R[0] := pval[0] <= alphai[0];
    select := select[0 := pval[0] <= tau];
    cand := cand[0 := pval[0] <= lam];
    var i := 1;
    while i < N
      invariant 1 <= i <= N && |select| == N && |cand| == N
      invariant forall j {:trigger select[j]} :: 0 <= j < i ==> select[j] == (pval[j] <= tau)
      invariant forall j {:trigger cand[j]} :: 0 <= j < i ==> cand[j] == (pval[j] <= lam)
      invariant forall j {:trigger select[j]} :: i <= j < N ==> !select[j]
      invariant forall j {:trigger cand[j]} :: i <= j < N ==> !cand[j]
      invariant forall k {:trigger alphai[k]} :: 0 <= k < i ==> alphai[k] == DepAlpha(pval, L, gammai, alpha, lam, tau, k)
      invariant forall k {:trigger R[k]} :: 0 <= k < i ==> R[k] == (pval[k] <= alphai[k])
    {
      var m := DepGammaIndex(pval, L, select, cand, i, lam, tau);
      alphai[i] := SpendValue(alpha, lam, tau, gammai[m]);
      R[i] := pval[i] <= alphai[i];
      select := select[i := pval[i] <= tau];
      cand := cand[i := pval[i] <= lam];
      i := i + 1;
    }
  }

  /** The dependent rule's first threshold agrees with the plain rule. */
  lemma DepFirstThreshold(pval: seq<real>, L: seq<int>, lam: real, tau: real)
    requires |pval| >= 1 && |L| >= |pval| && L[0] >= 0
    ensures DepIndex(pval, L, lam, tau, 0) == 0
  {
  }

  /** The window never reaches the lag: it covers at most j <= i - L[i]. */
  lemma DepWindowRespectsLag(L: seq<int>, i: int)
    requires 0 <= i < |L| && L[i] >= 0
    ensures DepHi(L, i) > 0 ==> DepHi(L, i) - 1 <= i - L[i]
    ensures L[i] >= i ==> DepHi(L, i) == 0
  {
  }

  /** With zero lag everywhere the dependent rule is the plain rule. */
  lemma DepZeroLagIsPlain(pval: seq<real>, L: seq<int>, gammai: seq<real>, alpha: real,
                          lam: real, tau: real, i: int)
    requires 0 <= i < |pval| && |L| >= |pval| && |gammai| > |pval|
    requires L[i] == 0
    ensures DepAlpha(pval, L, gammai, alpha, lam, tau, i) == SpendAlpha(pval, gammai, alpha, lam, tau, i)
  {
  }

  /**
   * The dependent index can reach i + 1, one past the last step (pval of
   * length 3, lags [0, 0, 1], the first two p-values in (lambda, tau]): the
   * rule reads one discount term more than there are p-values.
   */
  lemma DepIndexReachesPastLastStep(pval: seq<real>, lam: real, tau: real)
    requires |pval| == 3 && lam < pval[0] <= tau && lam < pval[1] <= tau
    ensures DepIndex(pval, [0, 0, 1], lam, tau, 2) == 3
  {
    assert DepHi([0, 0, 1], 2) == 2;
  }

  /**
   * Why lambda <= tau is required: with tau < pval[0] <= lambda the counters
   * selectsum - candsum are -1 after step 0, so step 1 would read gammai[-1].
   */
  lemma SpendCountersGoNegative(pval: seq<real>, lam: real, tau: real)
    requires |pval| >= 1 && tau < pval[0] <= lam
    ensures CountLe(pval, 0, 1, tau) - CountLe(pval, 0, 1, lam) == -1
  {
    CountLeSnoc(pval, 0, 0, tau);
    CountLeSnoc(pval, 0, 0, lam);
  }
}
