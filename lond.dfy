/*
 * LOND (significance Levels based On Number of Discoveries), lond_faster:
 * the threshold at step i is the caller's budget betai[i] scaled by the number
 * of discoveries made so far (original variant: D + 1; alternate: max(D, 1)).
 */
module Lond {
  import opened Common

  /** The LOND threshold at step i = |rs|, given the decisions rs on pval[0..i-1]. */
  function LondAlpha(betai: seq<real>, original: bool, rs: seq<bool>): real
    requires |rs| < |betai|
  {
    LondValue(betai[|rs|], original, CountTrue(rs))
  }

  /** betai[i] scaled after d discoveries. */
  function LondValue(b: real, original: bool, d: nat): real
  {
    b * LondFactor(original, d)
  }

  /** The multiplier applied to betai[i] after d discoveries. */
  function LondFactor(original: bool, d: nat): real
  {
    if original then (d + 1) as real else MaxInt(d, 1) as real
  }

  /** Outputs (alphai, R) follow the LOND recurrence on every prefix. */
  ghost predicate IsLondRun(pval: seq<real>, betai: seq<real>, original: bool,
                            alphai: seq<real>, r: seq<bool>)
    requires |betai| >= |pval|
  {
    |alphai| == |pval| && |r| == |pval| &&
    forall k :: 0 <= k < |pval| ==>
      alphai[k] == LondAlpha(betai, original, r[..k]) && r[k] == (pval[k] <= alphai[k])
  }

  /**
   * lond_faster. The `alpha` argument is accepted and never read, as in the
   * source: nothing in the contract mentions it.
   */
  method LondFaster(pval: seq<real>, betai: seq<real>, alpha: real, original: bool)
    returns (alphai: array<real>, R: array<bool>)
    requires |pval| >= 1 && |betai| >= |pval|
    ensures alphai.Length == |pval| && R.Length == |pval|
    ensures alphai[0] == betai[0] && R[0] == (pval[0] <= betai[0])
    ensures forall k {:trigger alphai[k]} :: 0 <= k < |pval| ==> alphai[k] == LondAlpha(betai, original, R[..k])
    ensures forall k {:trigger pval[k]} :: 0 <= k < |pval| ==> R[k] == (pval[k] <= alphai[k])
  {
    var N := |pval|;
    alphai := new real[N];
    R := new bool[N](_ => false);
    alphai[0] := betai[0];
    R[0] := pval[0] <= alphai[0];
    var D := B2I(R[0]);
    ghost var rs := [R[0]];
    var i := 1;
    assert LondState(pval, betai, original, alphai[..], R[..], rs, D, i);
    while i < N
      invariant LondState(pval, betai, original, alphai[..], R[..], rs, D, i)
      decreases N - i
    {
      D, rs := LondStep(pval, betai, original, alphai, R, D, rs, i);
      i := i + 1;
    }
    assert R[..] == R[..N];
  }

  /**
   * The arrays after i steps: alphai[0..i-1] and R[0..i-1] follow the
   * recurrence on the decisions rs, R is still false beyond, and D counts rs.
   */
  ghost predicate LondState(pval: seq<real>, betai: seq<real>, original: bool, alphai: seq<real>, R: seq<bool>,
                            rs: seq<bool>, D: int, i: int)
  {
    1 <= i <= |pval| == |alphai| == |R| <= |betai| && |rs| == i && R[..i] == rs &&
    (forall k :: i <= k < |pval| ==> !R[k]) && D == CountTrue(rs) &&
    (forall k {:trigger alphai[k]} :: 0 <= k < i ==> alphai[k] == LondAlpha(betai, original, rs[..k])) &&
    (forall k {:trigger pval[k]} :: 0 <= k < i ==> rs[k] == (pval[k] <= alphai[k])) &&
    alphai[0] == betai[0]
  }

  /** Step i of lond_faster: alphai[i] from D, then R[i] and D on the decision. */
  method LondStep(pval: seq<real>, betai: seq<real>, original: bool, alphai: array<real>, R: array<bool>,
                  D: int, ghost rs: seq<bool>, i: int)
    returns (D': int, ghost rs': seq<bool>)
    requires LondState(pval, betai, original, alphai[..], R[..], rs, D, i) && i < |pval|
    modifies alphai, R
    ensures LondState(pval, betai, original, alphai[..], R[..], rs', D', i + 1)
  {
    alphai[i] := LondValue(betai[i], original, D);
    D' := D;
    if pval[i] <= alphai[i] {
      R[i] := true;
      D' := D + 1;
    }
    PrefixOfSnoc(rs, pval[i] <= alphai[i]);
    rs' := rs + [pval[i] <= alphai[i]];
    assert R[..i + 1] == rs';
  }

  /** The first threshold is betai[0] in both variants. */
  lemma LondFirstThreshold(betai: seq<real>, original: bool)
    requires |betai| >= 1
    ensures LondAlpha(betai, original, []) == betai[0]
  {
  }

  /**
   * With a non-negative budget, every original-variant threshold is at least
   * betai[i], which is at least 0; the alternate variant is at least betai[i] too.
   */
  lemma LondThresholdFloor(betai: seq<real>, original: bool, rs: seq<bool>)
    requires |rs| < |betai| && betai[|rs|] >= 0.0
    ensures LondAlpha(betai, original, rs) >= betai[|rs|] >= 0.0
  {
    var d := CountTrue(rs);
    var f := if original then (d + 1) as real else MaxInt(d, 1) as real;
    assert f >= 1.0;
    assert betai[|rs|] * f >= betai[|rs|] * 1.0;
  }

  /** Until the first discovery both variants offer exactly betai[i]. */
  lemma LondNoDiscoveries(betai: seq<real>, original: bool, rs: seq<bool>)
    requires |rs| < |betai| && CountTrue(rs) == 0
    ensures LondAlpha(betai, original, rs) == betai[|rs|]
  {
  }

  /**
   * The two variants differ by exactly one step of the count once a discovery
   * has been made: betai[i] * (D + 1) versus betai[i] * D.
   */
  lemma LondVariantsAfterDiscovery(betai: seq<real>, rs: seq<bool>)
    requires |rs| < |betai| && CountTrue(rs) >= 1
    ensures LondAlpha(betai, true, rs) == LondAlpha(betai, false, rs) + betai[|rs|]
  {
    LondValueStep(betai[|rs|], CountTrue(rs));
  }

  /** One more discovery in the original variant adds exactly b once d >= 1. */
  lemma LondValueStep(b: real, d: nat)
    requires d >= 1
    ensures LondValue(b, true, d) == LondValue(b, false, d) + b
  {
    var x := d as real;
    assert MaxInt(d, 1) == d;
    assert LondFactor(false, d) == x;
    assert LondFactor(true, d) == x + 1.0;
    ScaleByOneMore(b, x);
  }

  /** b * (x + 1) == b * x + b. */
  lemma ScaleByOneMore(b: real, x: real)
    ensures b * (x + 1.0) == b * x + b
  {
  }

  /** With a non-negative budget, more discoveries never lower the threshold, in either variant. */
  lemma LondValueMonotone(b: real, d: nat, d2: nat)
    requires b >= 0.0 && d <= d2
    ensures LondValue(b, false, d) <= LondValue(b, false, d2)
    ensures LondValue(b, true, d) <= LondValue(b, true, d2)
  {
    var x := MaxInt(d, 1) as real;
    var y := MaxInt(d2, 1) as real;
    assert x <= y;
    assert b * y - b * x == b * (y - x);
    assert b * (y - x) >= 0.0;
    var u := (d + 1) as real;
    var v := (d2 + 1) as real;
    assert b * v - b * u == b * (v - u);
    assert b * (v - u) >= 0.0;
  }

  /** Each step's count equals the previous one plus the previous decision. */
  lemma LondCountStep(rs: seq<bool>, b: bool)
    ensures CountTrue(rs + [b]) == CountTrue(rs) + B2I(b)
  {
    assert (rs + [b])[..|rs|] == rs;
  }

  /**
   * The worked example: betai = [0.1, 0.05, 0.05, 0.05], pval = [0.05, 0.2, 0.01, 0.5],
   * original variant. Any outputs that follow the recurrence are
   * alphai = [0.1, 0.1, 0.1, 0.15] and R = [true, false, true, false].
   */
  lemma LondWorkedExample(alphai: seq<real>, r: seq<bool>)
    requires IsLondRun([0.05, 0.2, 0.01, 0.5], [0.1, 0.05, 0.05, 0.05], true, alphai, r)
    ensures alphai == [0.1, 0.1, 0.1, 0.15]
    ensures r == [true, false, true, false]
  {
    var pval := [0.05, 0.2, 0.01, 0.5];
    var betai := [0.1, 0.05, 0.05, 0.05];
    assert alphai[0] == LondAlpha(betai, true, r[..0]);
    assert r[0];
    assert r[..1] == [true];
    assert alphai[1] == LondAlpha(betai, true, r[..1]);
    assert CountTrue([true]) == 1;
    assert alphai[1] == 0.1;
    assert !r[1];
    assert r[..2] == [true, false];
    LondCountStep([true], false);
    assert [true] + [false] == [true, false];
    assert CountTrue([true, false]) == 1;
    assert alphai[2] == LondAlpha(betai, true, r[..2]);
    assert alphai[2] == LondValue(0.05, true, 1);
    assert alphai[2] == 0.1;
    assert r[2];
    assert r[..3] == [true, false, true];
    LondCountStep([true, false], true);
    assert [true, false] + [true] == [true, false, true];
    assert CountTrue([true, false, true]) == 2;
    assert alphai[3] == LondAlpha(betai, true, r[..3]);
    assert alphai[3] == LondValue(0.05, true, 2);
    assert alphai[3] == 0.15;
    assert !r[3];
  }
}
