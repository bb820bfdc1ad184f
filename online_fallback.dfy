/*
 * Online fallback (online_fallback_faster): each step spends alpha * gammai[i]
 * and, when the previous hypothesis was rejected, also passes on the whole
 * previous threshold.
 */
module OnlineFallback {
  import opened Common

  /** The share alpha * gammai[i] of the budget spent at a step. */
  function Share(alpha: real, g: real): real
  {
    alpha * g
  }

  /** alpha * gammai[i] plus the previous threshold when the previous test rejected. */
  function FallbackStep(alpha: real, g: real, prevRejected: bool, prevAlpha: real): real
  {
    Share(alpha, g) + (if prevRejected then prevAlpha else 0.0)
  }

  /** The threshold at step i, as the recurrence defines it from the p-values. */
  function FallbackAlpha(pval: seq<real>, gammai: seq<real>, alpha: real, i: int): real
    requires 0 <= i < |pval| <= |gammai|
    decreases i
  {
    if i == 0 then Share(alpha, gammai[0])
    else
      var prev := FallbackAlpha(pval, gammai, alpha, i - 1);
      FallbackStep(alpha, gammai[i], pval[i - 1] <= prev, prev)
  }

  /** online_fallback_faster. Only gammai[0..N-1] is read. */
  method FallbackFaster(pval: seq<real>, gammai: seq<real>, alpha: real)
    returns (alphai: array<real>, R: array<bool>)
    requires |pval| >= 1 && |gammai| >= |pval|
    ensures alphai.Length == |pval| && R.Length == |pval|
    ensures alphai[0] == alpha * gammai[0]
    ensures forall k {:trigger alphai[k], R[k - 1]} :: 1 <= k < |pval| ==>
      alphai[k] == FallbackStep(alpha, gammai[k], R[k - 1], alphai[k - 1])
    ensures forall k {:trigger alphai[k]} :: 0 <= k < |pval| ==>
      alphai[k] == FallbackAlpha(pval, gammai, alpha, k)
    ensures forall k {:trigger R[k]} :: 0 <= k < |pval| ==> R[k] == (pval[k] <= alphai[k])
  {
    var N := |pval|;
    alphai := new real[N];
    R := new bool[N];
    alphai[0] := Share(alpha, gammai[0]);
    R[0] := pval[0] <= alphai[0];
    var i := 1;
    while i < N
      invariant 1 <= i <= N
      invariant alphai[0] == alpha * gammai[0]
      invariant forall k {:trigger alphai[k], R[k - 1]} :: 1 <= k < i ==>
        alphai[k] == FallbackStep(alpha, gammai[k], R[k - 1], alphai[k - 1])
      invariant forall k {:trigger alphai[k]} :: 0 <= k < i ==>
        alphai[k] == FallbackAlpha(pval, gammai, alpha, k)
      invariant forall k {:trigger R[k]} :: 0 <= k < i ==> R[k] == (pval[k] <= alphai[k])
    {
      alphai[i] := FallbackStep(alpha, gammai[i], R[i - 1], alphai[i - 1]);
      R[i] := pval[i] <= alphai[i];
      i := i + 1;
    }
  }

  /** Without a rejection at i-1 nothing is carried over: alphai[i] = alpha * gammai[i]. */
  lemma FallbackNoCarry(pval: seq<real>, gammai: seq<real>, alpha: real, i: int)
    requires 1 <= i < |pval| <= |gammai|
    requires !(pval[i - 1] <= FallbackAlpha(pval, gammai, alpha, i - 1))
    ensures FallbackAlpha(pval, gammai, alpha, i) == alpha * gammai[i]
  {
  }

  /**
   * With non-negative alpha and gammai, every threshold lies between the
   * step's own share alpha * gammai[i] and the budget spent so far,
   * alpha * (gammai[0] + ... + gammai[i]).
   */
  lemma {:induction false} FallbackBounds(pval: seq<real>, gammai: seq<real>, alpha: real, i: int)
    requires 0 <= i < |pval| <= |gammai|
    requires alpha >= 0.0 && forall k :: 0 <= k < |gammai| ==> gammai[k] >= 0.0
    ensures alpha * gammai[i] <= FallbackAlpha(pval, gammai, alpha, i)
    ensures FallbackAlpha(pval, gammai, alpha, i) <= alpha * Sum(gammai[..i + 1])
  {
    assert gammai[..i + 1][..i] == gammai[..i];
    if i == 0 {
      assert gammai[..1] == [gammai[0]];
      assert Sum(gammai[..1]) == Sum(gammai[..0]) + gammai[0];
    } else {
      FallbackBounds(pval, gammai, alpha, i - 1);
      var prev := FallbackAlpha(pval, gammai, alpha, i - 1);
      assert alpha * gammai[i - 1] >= 0.0;
      assert prev >= 0.0;
      assert Sum(gammai[..i + 1]) == Sum(gammai[..i]) + gammai[i];
      assert alpha * Sum(gammai[..i + 1]) == alpha * Sum(gammai[..i]) + alpha * gammai[i];
    }
  }

  /**
   * The worked example: gammai = [0.5, 0.3, 0.2], alpha = 0.05,
   * pval = [0.01, 0.5, 0.005] gives alphai = [0.025, 0.04, 0.01], and the
   * decisions reject, accept, reject.
   */
  lemma FallbackWorkedExample()
    ensures FallbackAlpha([0.01, 0.5, 0.005], [0.5, 0.3, 0.2], 0.05, 0) == 0.025
    ensures FallbackAlpha([0.01, 0.5, 0.005], [0.5, 0.3, 0.2], 0.05, 1) == 0.04
    ensures FallbackAlpha([0.01, 0.5, 0.005], [0.5, 0.3, 0.2], 0.05, 2) == 0.01
    ensures 0.01 <= FallbackAlpha([0.01, 0.5, 0.005], [0.5, 0.3, 0.2], 0.05, 0)
    ensures !(0.5 <= FallbackAlpha([0.01, 0.5, 0.005], [0.5, 0.3, 0.2], 0.05, 1))
    ensures 0.005 <= FallbackAlpha([0.01, 0.5, 0.005], [0.5, 0.3, 0.2], 0.05, 2)
  {
    var p := [0.01, 0.5, 0.005];
    var g := [0.5, 0.3, 0.2];
    assert FallbackAlpha(p, g, 0.05, 0) == 0.025;
    assert FallbackAlpha(p, g, 0.05, 1) == 0.04;
  }
}
