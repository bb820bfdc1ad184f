/*
 * SAFFRON* (saffronstar_async_faster, saffronstar_dep_faster,
 * saffronstar_batch_faster): SAFFRON under asynchronous testing, local
 * dependence and batches. As in LORD*, the async and dep variants rebuild the
 * list r of visible rejections at every step as a std::vector<bool>, so each
 * pushed index reads back as 0 or 1; the candidate counts then only include
 * the candidates the step is allowed to see.
 *
 * The parameter lam is the source's lambda.
 */
module SaffronStar {
  import opened Common
  import opened Lord
  import Saffron
  import LordStar

  // ---------------------------------------------------------------------
  // The async and dep variants.

  /**
   * Which earlier candidates step i may count: those whose outcome has
   * arrived (async, `E[k]-1 <= i-1`) or those at positions up to
   * i-1-L[i] (dep).
   */
  datatype View = Arrival(E: seq<int>) | Lag(li: int)

  /** Whether step i counts the candidate at position k. */
  predicate Sees(view: View, i: int, k: int)
    requires view.Arrival? ==> 0 <= k < |view.E|
  {
    match view
    case Arrival(e) => Arrived(e[k], i)
    case Lag(li) => k <= i - 1 - li
  }

  /** cv[k] for k < i: position k is a candidate (pval[k] <= lambda) that step i counts. */
  function Counted(pval: seq<real>, lam: real, view: View, i: int): (cv: seq<bool>)
    requires 0 <= i <= |pval| && (view.Arrival? ==> i <= |view.E|)
    ensures |cv| == i
  {
    seq(i, k requires 0 <= k < i => pval[k] <= lam && Sees(view, i, k))
  }

  /** Number of k in [lo, |cv|) with cv[k]. */
  function CountFrom(cv: seq<bool>, lo: int): (c: nat)
    requires 0 <= lo
    ensures lo <= |cv| ==> c <= |cv| - lo
    ensures |cv| <= lo ==> c == 0
  {
    if |cv| <= lo then 0 else CountFrom(cv[..|cv| - 1], lo) + B2I(cv[|cv| - 1])
  }

  /**
   * The discount values of step i, one per entry of r: for the pushed index
   * n, with s = StoredIdx(n) the value r[j] reads back as, the term is
   * gammai[i - s - Cjplus - 1], where Cjplus counts the positions in
   * [s + 1, i) holding a counted candidate.
   */
  function Terms(gammai: seq<real>, i: int, rs: seq<bool>, vis: seq<bool>, cv: seq<bool>): (t: seq<real>)
    requires |rs| == |vis| <= i == |cv| <= |gammai|
    ensures |t| == |LordStar.Pushed(rs, vis)|
  {
    if |rs| == 0 then []
    else
      var n := |rs| - 1;
      var s := StoredIdx(n);
      Terms(gammai, i, rs[..n], vis[..n], cv) +
      (if rs[n] && vis[n] then [gammai[i - s - CountFrom(cv, s + 1) - 1]] else [])
  }

  /**
   * alphaitilde of step i: w0*gammai[i - candsum] + ((1-lambda)*alpha - w0)
   * times the first term + (1-lambda)*alpha times the later terms.
   */
  function StarTilde(gammai: seq<real>, w0: real, lam: real, alpha: real, i: int, candsum: int,
                     terms: seq<real>): real
    requires 0 <= i - candsum < |gammai|
  {
    LordRule(gammai[i - candsum], w0, Saffron.Shrink(lam, alpha), terms)
  }

  /**
   * The async candsum at step i: candidate k is added at step k + 1, and
   * only if its outcome has arrived by then (E[k] <= k + 1).
   */
  function AsyncCandsum(pval: seq<real>, E: seq<int>, lam: real, i: int): (c: nat)
    requires 0 <= i <= |pval| && i <= |E|
    ensures c <= i
  {
    if i == 0 then 0
    else AsyncCandsum(pval, E, lam, i - 1) + B2I(pval[i - 1] <= lam && Arrived(E[i - 1], i))
  }

  /** The async threshold at step i = |rs| >= 1. */
  function AsyncAlpha(pval: seq<real>, gammai: seq<real>, E: seq<int>, w0: real, lam: real, alpha: real,
                      rs: seq<bool>): real
    requires |rs| <= |pval| && |rs| < |gammai| && |rs| <= |E|
  {
    var i := |rs|;
    Min(lam, StarTilde(gammai, w0, lam, alpha, i, AsyncCandsum(pval, E, lam, i),
                          Terms(gammai, i, rs, LordStar.AsyncVis(E, i, i), Counted(pval, lam, Arrival(E), i))))
  }

  /** The dep candsum at step i: the candidates at positions 0..i-1-L[i] written so far. */
  function DepCandsum(pval: seq<real>, lam: real, li: int, i: int): (c: nat)
    requires 0 <= i <= |pval|
    ensures c <= i
  {
    CountLe(pval, 0, MinInt(i - li, i), lam)
  }

  /** The dep threshold at step i = |rs| >= 1. */
  function DepAlpha(pval: seq<real>, gammai: seq<real>, L: seq<int>, w0: real, lam: real, alpha: real,
                    rs: seq<bool>): real
    requires |rs| <= |pval| && |rs| < |gammai| && |rs| < |L|
  {
    var i := |rs|;
    Min(lam, StarTilde(gammai, w0, lam, alpha, i, DepCandsum(pval, lam, L[i], i),
                          Terms(gammai, i, rs, LordStar.DepVis(L[i], i), Counted(pval, lam, Lag(L[i]), i))))
  }

  /**
   * Each term reads gammai at i - v - Cjplus - 1, with v in {0, 1} the value
   * r[j] reads back as and Cjplus the counted candidates in [v + 1, i); every
   * entry after the first reads back as 1.
   */
  lemma {:induction false} TermsAt(gammai: seq<real>, i: int, rs: seq<bool>, vis: seq<bool>, cv: seq<bool>)
    requires |rs| == |vis| <= i == |cv| <= |gammai|
    ensures forall g :: 0 <= g < |LordStar.Pushed(rs, vis)| ==>
              BitValue(LordStar.Pushed(rs, vis)[g]) + 1 <= i &&
              Terms(gammai, i, rs, vis, cv)[g] ==
                gammai[i - BitValue(LordStar.Pushed(rs, vis)[g]) - CountFrom(cv, BitValue(LordStar.Pushed(rs, vis)[g]) + 1) - 1]
    ensures forall g :: 1 <= g < |LordStar.Pushed(rs, vis)| ==> LordStar.Pushed(rs, vis)[g]
  {
    if |rs| > 0 {
      var n := |rs| - 1;
      TermsAt(gammai, i, rs[..n], vis[..n], cv);
      BitValueOfStored(n);
      var p' := LordStar.Pushed(rs[..n], vis[..n]);
      var t' := Terms(gammai, i, rs[..n], vis[..n], cv);
      if n == 0 {
        assert p' == [];
      }
      if rs[n] && vis[n] {
        assert LordStar.Pushed(rs, vis) == p' + [n != 0];
        assert Terms(gammai, i, rs, vis, cv) == t' + [gammai[i - StoredIdx(n) - CountFrom(cv, StoredIdx(n) + 1) - 1]];
      } else {
        assert LordStar.Pushed(rs, vis) == p';
        assert Terms(gammai, i, rs, vis, cv) == t';
      }
    }
  }

  /**
   * The Cjplus recount of one entry of r: k runs from `start` = r[j] + 1 to
   * max(i - 1, start) and counts the cand[k] that step i sees. Position i,
   * which the loop may reach, is not written yet and holds 0.
   */
  method CountSeen(cand: seq<int>, pval: seq<real>, lam: real, view: View, i: int, start: int)
    returns (c: int)
    requires Saffron.CandWritten(pval, lam, cand, i) && i < |cand|
    requires 1 <= start <= i
    requires view.Arrival? ==> |cand| <= |view.E|
    ensures c == CountFrom(Counted(pval, lam, view, i), start)
  {
    ghost var cv := Counted(pval, lam, view, i);
    var to := MaxInt(i - 1, start);
    c := 0;
    var k := start;
    while k <= to
      invariant start <= k <= to + 1
      invariant c == CountFrom(cv[..MinInt(k, i)], start)
    {
      if k < i {
        assert cv[..k + 1][..k] == cv[..k];
      } else {
        assert MinInt(k + 1, i) == MinInt(k, i);
      }
      if cand[k] != 0 && Sees(view, i, k) {
        c := c + 1;
      }
      k := k + 1;
    }
    assert cv[..i] == cv;
  }

  /**
   * The Cjplus loop of the K > 1 branch: Cjplus[j] recounted and
   * gammai[i - r[j] - Cjplus[j] - 1] added for every j; c0 is Cjplus[0].
   */
  method CjplusSum(gammai: seq<real>, cand: seq<int>, pval: seq<real>, lam: real, view: View,
                   r: seq<bool>, i: int, ghost rs: seq<bool>, ghost vis: seq<bool>)
    returns (s: real, c0: int)
    requires 1 <= i == |rs| == |vis| < |cand| <= |pval| <= |gammai|
    requires Saffron.CandWritten(pval, lam, cand, i)
    requires view.Arrival? ==> |cand| <= |view.E|
    requires r == LordStar.Pushed(rs, vis) && |r| >= 1
    ensures s == Sum(Terms(gammai, i, rs, vis, Counted(pval, lam, view, i)))
    ensures c0 == CountFrom(Counted(pval, lam, view, i), BitValue(r[0]) + 1)
    ensures 0 <= i - BitValue(r[0]) - c0 - 1 < |gammai|
    ensures Terms(gammai, i, rs, vis, Counted(pval, lam, view, i))[0] == gammai[i - BitValue(r[0]) - c0 - 1]
  {
    ghost var cv := Counted(pval, lam, view, i);
    ghost var terms := Terms(gammai, i, rs, vis, cv);
    TermsAt(gammai, i, rs, vis, cv);
    s, c0 := CjplusLoop(gammai, cand, pval, lam, view, r, i, cv, terms);
  }

  /** The loop of CjplusSum, against the terms read through r. */
  method CjplusLoop(gammai: seq<real>, cand: seq<int>, pval: seq<real>, lam: real, view: View,
                    r: seq<bool>, i: int, ghost cv: seq<bool>, ghost terms: seq<real>)
    returns (s: real, c0: int)
    requires 1 <= i < |cand| <= |pval| <= |gammai|
    requires Saffron.CandWritten(pval, lam, cand, i)
    requires view.Arrival? ==> |cand| <= |view.E|
    requires cv == Counted(pval, lam, view, i) && |r| >= 1 && |terms| == |r|
    requires forall g :: 0 <= g < |r| ==>
               BitValue(r[g]) + 1 <= i &&
               terms[g] == gammai[i - BitValue(r[g]) - CountFrom(cv, BitValue(r[g]) + 1) - 1]
    ensures s == Sum(terms)
    ensures c0 == CountFrom(cv, BitValue(r[0]) + 1)
    ensures 0 <= i - BitValue(r[0]) - c0 - 1 < |gammai| && terms[0] == gammai[i - BitValue(r[0]) - c0 - 1]
  {
    s := 0.0;
    c0 := 0;
    var K := |r|;
    var j := 0;
    while j < K
      invariant 0 <= j <= K && s == Sum(terms[..j])
      invariant j >= 1 ==> c0 == CountFrom(cv, BitValue(r[0]) + 1)
    {
      var v := BitValue(r[j]);
      var c := CountSeen(cand, pval, lam, view, i, v + 1);
      if j == 0 {
        c0 := c;
      }
      SumSnoc(terms, j);
      s := s + gammai[i - v - c - 1];
      j := j + 1;
    }
    assert terms[..K] == terms;
  }

  /** The shared requirements of the threshold methods of step i. */
  ghost predicate StepReady(gammai: seq<real>, cand: seq<int>, pval: seq<real>, lam: real, view: View,
                            r: seq<bool>, i: int, candsum: int, rs: seq<bool>, vis: seq<bool>)
  {
    1 <= i == |rs| == |vis| < |cand| <= |pval| <= |gammai| &&
    Saffron.CandWritten(pval, lam, cand, i) &&
    (view.Arrival? ==> |cand| <= |view.E|) &&
    r == LordStar.Pushed(rs, vis) && 0 <= candsum <= i
  }

  /** alphaitilde when r holds two or more entries. */
  method TildeMany(gammai: seq<real>, w0: real, lam: real, alpha: real, cand: seq<int>, pval: seq<real>,
                   view: View, r: seq<bool>, i: int, candsum: int, ghost rs: seq<bool>, ghost vis: seq<bool>)
    returns (alphaitilde: real)
    requires StepReady(gammai, cand, pval, lam, view, r, i, candsum, rs, vis) && |r| > 1
    ensures alphaitilde == StarTilde(gammai, w0, lam, alpha, i, candsum,
                                     Terms(gammai, i, rs, vis, Counted(pval, lam, view, i)))
  {
    ghost var terms := Terms(gammai, i, rs, vis, Counted(pval, lam, view, i));
    var sum, c0 := CjplusSum(gammai, cand, pval, lam, view, r, i, rs, vis);
    var first := gammai[i - BitValue(r[0]) - c0 - 1];
    StarTildeHigh(gammai, w0, lam, alpha, i, candsum, terms, first, sum);
    alphaitilde := LordHigh(gammai[i - candsum], w0, Saffron.Shrink(lam, alpha), first, sum - first);
  }

  /** With two or more terms, alphaitilde is the LordHigh form on the first term and the sum of the rest. */
  lemma StarTildeHigh(gammai: seq<real>, w0: real, lam: real, alpha: real, i: int, candsum: int,
                      terms: seq<real>, first: real, sum: real)
    requires 0 <= i - candsum < |gammai| && |terms| >= 2 && first == terms[0] && sum == Sum(terms)
    ensures StarTilde(gammai, w0, lam, alpha, i, candsum, terms) ==
            LordHigh(gammai[i - candsum], w0, Saffron.Shrink(lam, alpha), first, sum - first)
  {
    SumFirst(terms);
    LordRuleCases(gammai[i - candsum], w0, Saffron.Shrink(lam, alpha), terms);
  }

  /** alphaitilde when r holds exactly one entry. */
  method TildeOne(gammai: seq<real>, w0: real, lam: real, alpha: real, cand: seq<int>, pval: seq<real>,
                  view: View, r: seq<bool>, i: int, candsum: int, ghost rs: seq<bool>, ghost vis: seq<bool>)
    returns (alphaitilde: real)
    requires StepReady(gammai, cand, pval, lam, view, r, i, candsum, rs, vis) && |r| == 1
    ensures alphaitilde == StarTilde(gammai, w0, lam, alpha, i, candsum,
                                     Terms(gammai, i, rs, vis, Counted(pval, lam, view, i)))
  {
    ghost var cv := Counted(pval, lam, view, i);
    ghost var terms := Terms(gammai, i, rs, vis, cv);
    TermsAt(gammai, i, rs, vis, cv);
    var c := CountSeen(cand, pval, lam, view, i, BitValue(r[0]) + 1);
    LordRuleCases(gammai[i - candsum], w0, Saffron.Shrink(lam, alpha), terms);
    alphaitilde := LordLow(gammai[i - candsum], w0, Saffron.Shrink(lam, alpha), gammai[i - BitValue(r[0]) - c - 1]);
  }

  /** alphaitilde when r is empty: w0 * gammai[i - candsum]. */
  method TildeNone(gammai: seq<real>, w0: real, lam: real, alpha: real, cand: seq<int>, pval: seq<real>,
                   view: View, r: seq<bool>, i: int, candsum: int, ghost rs: seq<bool>, ghost vis: seq<bool>)
    returns (alphaitilde: real)
    requires StepReady(gammai, cand, pval, lam, view, r, i, candsum, rs, vis) && |r| == 0
    ensures alphaitilde == StarTilde(gammai, w0, lam, alpha, i, candsum,
                                     Terms(gammai, i, rs, vis, Counted(pval, lam, view, i)))
  {
    LordRuleCases(gammai[i - candsum], w0, Saffron.Shrink(lam, alpha),
                  Terms(gammai, i, rs, vis, Counted(pval, lam, view, i)));
    alphaitilde := w0 * gammai[i - candsum];
  }

  /** The threshold of step i >= 1: the three branches on K = r.size(), capped at lambda. */
  method StarThreshold(gammai: seq<real>, w0: real, lam: real, alpha: real, cand: seq<int>, pval: seq<real>,
                       view: View, r: seq<bool>, i: int, candsum: int, ghost rs: seq<bool>, ghost vis: seq<bool>)
    returns (a: real)
    requires StepReady(gammai, cand, pval, lam, view, r, i, candsum, rs, vis)
    ensures a == Min(lam, StarTilde(gammai, w0, lam, alpha, i, candsum,
                                       Terms(gammai, i, rs, vis, Counted(pval, lam, view, i))))
  {
    var K := |r|;
    var alphaitilde;
    if K > 1 {
      alphaitilde := TildeMany(gammai, w0, lam, alpha, cand, pval, view, r, i, candsum, rs, vis);
    } else if K == 1 {
      alphaitilde := TildeOne(gammai, w0, lam, alpha, cand, pval, view, r, i, candsum, rs, vis);
    } else {
      alphaitilde := TildeNone(gammai, w0, lam, alpha, cand, pval, view, r, i, candsum, rs, vis);
    }
    a := Min(lam, alphaitilde);
  }

  /**
   * One async step i = |R| >= 1: cand[i-1] is written, r is rebuilt from the
   * arrived rejections, candsum adds cand[i-1] if its outcome has arrived, and
   * the threshold is computed.
   */
  method AsyncStep(pval: seq<real>, E: seq<int>, gammai: seq<real>, w0: real, lam: real, alpha: real,
                   cand: seq<int>, candsum: int, R: seq<bool>)
    returns (cand': seq<int>, candsum': int, a: real)
    requires 1 <= |R| < |pval| <= |gammai| && |pval| <= |E| && |cand| == |pval|
    requires Saffron.CandWritten(pval, lam, cand, |R| - 1)
    requires candsum == AsyncCandsum(pval, E, lam, |R| - 1)
    ensures |cand'| == |pval| && Saffron.CandWritten(pval, lam, cand', |R|)
    ensures candsum' == AsyncCandsum(pval, E, lam, |R|)
    ensures a == AsyncAlpha(pval, gammai, E, w0, lam, alpha, R)
  {
    var i := |R|;
    cand' := cand[i - 1 := B2I(pval[i - 1] <= lam)];
    var r := LordStar.PushArrived(R, E, i);
    candsum' := candsum + B2I(cand'[i - 1] != 0 && E[i - 1] - 1 <= i - 1);
    a := StarThreshold(gammai, w0, lam, alpha, cand', pval, Arrival(E), r, i, candsum', R, LordStar.AsyncVis(E, i, i));
  }

  /** One more async step keeps the recurrence on every prefix. */
  lemma AsyncExtend(pval: seq<real>, E: seq<int>, gammai: seq<real>, w0: real, lam: real, alpha: real,
                    alphai: seq<real>, rs: seq<bool>, a: real, b: bool)
    requires 1 <= |rs| == |alphai| < |pval| <= |gammai| && |pval| <= |E|
    requires forall k {:trigger alphai[k]} :: 1 <= k < |rs| ==>
               alphai[k] == AsyncAlpha(pval, gammai, E, w0, lam, alpha, rs[..k])
    requires forall k {:trigger pval[k]} :: 0 <= k < |rs| ==> rs[k] == (pval[k] <= alphai[k])
    requires a == AsyncAlpha(pval, gammai, E, w0, lam, alpha, rs) && b == (pval[|rs|] <= a)
    ensures forall k {:trigger (alphai + [a])[k]} :: 1 <= k < |rs| + 1 ==>
              (alphai + [a])[k] == AsyncAlpha(pval, gammai, E, w0, lam, alpha, (rs + [b])[..k])
  {
    forall k | 1 <= k < |rs| + 1
      ensures (alphai + [a])[k] == AsyncAlpha(pval, gammai, E, w0, lam, alpha, (rs + [b])[..k])
    {
      PrefixOfSnocAt(alphai, a, rs, b, k);
    }
  }

  /**
   * saffronstar_async_faster. alphai[0] = min(gammai[0]*w0, lambda), without
   * the (1 - lambda) factor of the later steps; every later threshold is the
   * async SAFFRON rule capped at lambda.
   */
  method AsyncFaster(pval: seq<real>, E: seq<int>, gammai: seq<real>, w0: real, lam: real, alpha: real)
    returns (alphai: seq<real>, R: seq<bool>)
    requires |pval| >= 1 && |gammai| >= |pval| && |E| >= |pval|
    ensures |alphai| == |pval| && |R| == |pval|
    ensures alphai[0] == Min(gammai[0] * w0, lam)
    ensures forall k {:trigger alphai[k]} :: 1 <= k < |pval| ==>
              alphai[k] == AsyncAlpha(pval, gammai, E, w0, lam, alpha, R[..k]) && alphai[k] <= lam
    ensures forall k {:trigger pval[k]} :: 0 <= k < |pval| ==> R[k] == (pval[k] <= alphai[k])
  {
    var N := |pval|;
    var cand := seq(N, _ => 0);
    var candsum := 0;
    alphai := [Min(gammai[0] * w0, lam)];
    R := [pval[0] <= alphai[0]];
    var i := 1;
    while i < N
      invariant 1 <= i <= N && |alphai| == i && |R| == i && |cand| == N
      invariant alphai[0] == Min(gammai[0] * w0, lam)
      invariant Saffron.CandWritten(pval, lam, cand, i - 1)
      invariant candsum == AsyncCandsum(pval, E, lam, i - 1)
      invariant forall k {:trigger alphai[k]} :: 1 <= k < i ==>
                  alphai[k] == AsyncAlpha(pval, gammai, E, w0, lam, alpha, R[..k])
      invariant forall k {:trigger pval[k]} :: 0 <= k < i ==> R[k] == (pval[k] <= alphai[k])
    {
      var a;
      cand, candsum, a := AsyncStep(pval, E, gammai, w0, lam, alpha, cand, candsum, R);
      var b := pval[i] <= a;
      AsyncExtend(pval, E, gammai, w0, lam, alpha, alphai, R, a, b);
      DecisionsSnoc(pval, alphai, R, a, b);
      alphai := alphai + [a];
      R := R + [b];
      i := i + 1;
    }
  }

  /** The dep candsum loop: cand[m] summed for m in 0..bound. */
  method CandsumUpTo(cand: seq<int>, bound: int) returns (c: int)
    requires bound < |cand|
    ensures c == Saffron.CandTotal(cand, 0, bound)
  {
    c := 0;
    var m := 0;
    while m <= bound
      invariant 0 <= m <= MaxInt(bound + 1, 0)
      invariant c == Saffron.CandTotal(cand, 0, m - 1)
    {
      c := c + cand[m];
      m := m + 1;
    }
  }

  /**
   * One dep step i = |R| >= 1: cand[i-1] is written, r is rebuilt with the
   * test j <= j - L[i], and candsum is recounted over 0..i-1-L[i]. ok is
   * false when that recount would read past the end of cand.
   */
  method DepStep(pval: seq<real>, L: seq<int>, gammai: seq<real>, w0: real, lam: real, alpha: real,
                 cand: seq<int>, R: seq<bool>)
    returns (cand': seq<int>, ok: bool, a: real)
    requires 1 <= |R| < |pval| <= |gammai| && |pval| <= |L| && |cand| == |pval|
    requires Saffron.CandWritten(pval, lam, cand, |R| - 1)
    ensures |cand'| == |pval| && Saffron.CandWritten(pval, lam, cand', |R|)
    ensures ok <==> |R| - 1 - L[|R|] < |pval|
    ensures ok ==> a == DepAlpha(pval, gammai, L, w0, lam, alpha, R)
  {
    var i := |R|;
    cand' := cand[i - 1 := B2I(pval[i - 1] <= lam)];
    var r := LordStar.PushDep(R, L[i], i);
    var bound := i - 1 - L[i];
    if bound >= |pval| {
      return cand', false, 0.0;
    }
    var candsum := CandsumUpTo(cand', bound);
    Saffron.CandTotalCounts(pval, lam, cand', i, 0, bound);
    ok := true;
    a := StarThreshold(gammai, w0, lam, alpha, cand', pval, Lag(L[i]), r, i, candsum, R, LordStar.DepVis(L[i], i));
  }

  /** One more dep step keeps the recurrence on every prefix. */
  lemma DepExtend(pval: seq<real>, L: seq<int>, gammai: seq<real>, w0: real, lam: real, alpha: real,
                  alphai: seq<real>, rs: seq<bool>, a: real, b: bool)
    requires 1 <= |rs| == |alphai| < |pval| <= |gammai| && |pval| <= |L|
    requires forall k {:trigger alphai[k]} :: 1 <= k < |rs| ==>
               alphai[k] == DepAlpha(pval, gammai, L, w0, lam, alpha, rs[..k])
    requires forall k {:trigger pval[k]} :: 0 <= k < |rs| ==> rs[k] == (pval[k] <= alphai[k])
    requires a == DepAlpha(pval, gammai, L, w0, lam, alpha, rs) && b == (pval[|rs|] <= a)
    ensures forall k {:trigger (alphai + [a])[k]} :: 1 <= k < |rs| + 1 ==>
              (alphai + [a])[k] == DepAlpha(pval, gammai, L, w0, lam, alpha, (rs + [b])[..k])
  {
    forall k | 1 <= k < |rs| + 1
      ensures (alphai + [a])[k] == DepAlpha(pval, gammai, L, w0, lam, alpha, (rs + [b])[..k])
    {
      PrefixOfSnocAt(alphai, a, rs, b, k);
    }
  }

  /**
   * saffronstar_dep_faster. The same rule as the async variant with the lag
   * visibility. ok is false, with the steps computed so far returned, when
   * some step's candsum recount would read past the end of cand (a lag below
   * i - N).
   */
  method DepFaster(pval: seq<real>, L: seq<int>, gammai: seq<real>, w0: real, lam: real, alpha: real)
    returns (alphai: seq<real>, R: seq<bool>, ok: bool)
    requires |pval| >= 1 && |gammai| >= |pval| && |L| >= |pval|
    ensures 1 <= |alphai| == |R| <= |pval|
    ensures alphai[0] == Min(gammai[0] * w0, lam)
    ensures forall k {:trigger alphai[k]} :: 1 <= k < |R| ==>
              alphai[k] == DepAlpha(pval, gammai, L, w0, lam, alpha, R[..k]) && alphai[k] <= lam
    ensures forall k {:trigger pval[k]} :: 0 <= k < |R| ==> R[k] == (pval[k] <= alphai[k])
    ensures ok <==> |R| == |pval|
    ensures !ok ==> |R| - 1 - L[|R|] >= |pval|
  {
    var N := |pval|;
    var cand := seq(N, _ => 0);
    alphai := [Min(gammai[0] * w0, lam)];
    R := [pval[0] <= alphai[0]];
    var i := 1;
    while i < N
      invariant 1 <= i <= N && |alphai| == i && |R| == i && |cand| == N
      invariant alphai[0] == Min(gammai[0] * w0, lam)
      invariant Saffron.CandWritten(pval, lam, cand, i - 1)
      invariant forall k {:trigger alphai[k]} :: 1 <= k < i ==>
                  alphai[k] == DepAlpha(pval, gammai, L, w0, lam, alpha, R[..k])
      invariant forall k {:trigger pval[k]} :: 0 <= k < i ==> R[k] == (pval[k] <= alphai[k])
    {
      var a, stepOk;
      cand, stepOk, a := DepStep(pval, L, gammai, w0, lam, alpha, cand, R);
      if !stepOk {
        return alphai, R, false;
      }
      var b := pval[i] <= a;
      DepExtend(pval, L, gammai, w0, lam, alpha, alphai, R, a, b);
      DecisionsSnoc(pval, alphai, R, a, b);
      alphai := alphai + [a];
      R := R + [b];
      i := i + 1;
    }
    ok := true;
  }

  // ---------------------------------------------------------------------
  // Properties of the async and dep rules.

  /** Async: Cjplus[j] counts the candidates k in [lo, i) with E[k] <= i. */
  lemma CountFromArrival(pval: seq<real>, E: seq<int>, lam: real, i: int, lo: int)
    requires 0 <= lo && 0 <= i <= |pval| && i <= |E|
    ensures CountFrom(Counted(pval, lam, Arrival(E), i), lo) == CountLeArrived(pval, E, lo, i, lam, i)
  {
    var cv := Counted(pval, lam, Arrival(E), i);
    CountFromArrivalUpTo(pval, E, lam, i, lo, i);
    assert cv[..i] == cv;
  }

  lemma {:induction false} CountFromArrivalUpTo(pval: seq<real>, E: seq<int>, lam: real, i: int, lo: int, n: int)
    requires 0 <= lo && 0 <= n <= i <= |pval| && i <= |E|
    ensures CountFrom(Counted(pval, lam, Arrival(E), i)[..n], lo) == CountLeArrived(pval, E, lo, n, lam, i)
  {
    var cv := Counted(pval, lam, Arrival(E), i);
    if n > lo {
      CountFromArrivalUpTo(pval, E, lam, i, lo, n - 1);
      assert cv[..n][..n - 1] == cv[..n - 1];
    }
  }

  /** Dep: Cjplus[j] counts the candidates k in [lo, i) with k <= i-1-L[i]. */
  lemma CountFromLag(pval: seq<real>, lam: real, li: int, i: int, lo: int)
    requires 0 <= lo && 0 <= i <= |pval|
    ensures CountFrom(Counted(pval, lam, Lag(li), i), lo) == CountLe(pval, lo, MinInt(i - li, i), lam)
  {
    var cv := Counted(pval, lam, Lag(li), i);
    CountFromLagUpTo(pval, lam, li, i, lo, i);
    assert cv[..i] == cv;
  }

  lemma {:induction false} CountFromLagUpTo(pval: seq<real>, lam: real, li: int, i: int, lo: int, n: int)
    requires 0 <= lo && 0 <= n <= i <= |pval|
    ensures CountFrom(Counted(pval, lam, Lag(li), i)[..n], lo) == CountLe(pval, lo, MinInt(i - li, n), lam)
  {
    var cv := Counted(pval, lam, Lag(li), i);
    if n > lo {
      CountFromLagUpTo(pval, lam, li, i, lo, n - 1);
      assert cv[..n][..n - 1] == cv[..n - 1];
      if n <= i - li {
        assert MinInt(i - li, n) == MinInt(i - li, n - 1) + 1;
      } else {
        assert MinInt(i - li, n) == MinInt(i - li, n - 1);
      }
    }
  }

  /** The async candsum never exceeds the candidates whose outcome has arrived by step i. */
  lemma {:induction false} AsyncCandsumVisible(pval: seq<real>, E: seq<int>, lam: real, n: int, i: int)
    requires 0 <= n <= i <= |pval| && i <= |E|
    ensures AsyncCandsum(pval, E, lam, n) <= CountLeArrived(pval, E, 0, n, lam, i)
  {
    if n > 0 {
      AsyncCandsumVisible(pval, E, lam, n - 1, i);
    }
  }

  /** The async candsum never exceeds the number of candidates among the first i p-values. */
  lemma {:induction false} AsyncCandsumAtMost(pval: seq<real>, E: seq<int>, lam: real, i: int)
    requires 0 <= i <= |pval| && i <= |E|
    ensures AsyncCandsum(pval, E, lam, i) <= CountLe(pval, 0, i, lam)
  {
    if i > 0 {
      AsyncCandsumAtMost(pval, E, lam, i - 1);
    }
  }

  /**
   * A candidate k whose outcome arrives after step k + 1 is never counted:
   * at every later step candsum falls short of the candidate count.
   */
  lemma {:induction false} AsyncCandsumMissesLate(pval: seq<real>, E: seq<int>, lam: real, k: int, i: int)
    requires 0 <= k < i <= |pval| && i <= |E|
    requires pval[k] <= lam && !Arrived(E[k], k + 1)
    ensures AsyncCandsum(pval, E, lam, i) < CountLe(pval, 0, i, lam)
  {
    if i == k + 1 {
      AsyncCandsumAtMost(pval, E, lam, k);
    } else {
      AsyncCandsumMissesLate(pval, E, lam, k, i - 1);
    }
  }

  /** When every outcome arrives by its own next step, candsum counts every candidate. */
  lemma {:induction false} AsyncCandsumOnTime(pval: seq<real>, E: seq<int>, lam: real, i: int)
    requires 0 <= i <= |pval| && i <= |E|
    requires forall k :: 0 <= k < i ==> Arrived(E[k], k + 1)
    ensures AsyncCandsum(pval, E, lam, i) == CountLe(pval, 0, i, lam)
  {
    if i > 0 {
      AsyncCandsumOnTime(pval, E, lam, i - 1);
    }
  }

  /**
   * Dep with L[i] <= 0: every earlier rejection is pushed onto r, candsum is
   * every written candidate, and each Cjplus counts the candidates in [lo, i).
   */
  lemma DepNoLag(pval: seq<real>, lam: real, li: int, i: int, rs: seq<bool>, lo: int)
    requires li <= 0 && 0 <= lo && i == |rs| <= |pval|
    ensures LordStar.VisIndices(rs, LordStar.DepVis(li, i)) == Rejected(rs)
    ensures DepCandsum(pval, lam, li, i) == CountLe(pval, 0, i, lam)
    ensures CountFrom(Counted(pval, lam, Lag(li), i), lo) == CountLe(pval, lo, i, lam)
  {
    LordStar.DepVisIndices(rs, li);
    CountFromLag(pval, lam, li, i, lo);
  }

  /**
   * Dep with L[i] > 0: the test j <= j - L[i] pushes nothing, and the
   * threshold is min(lambda, w0 * gammai[i - candsum]) with candsum the
   * candidates at positions 0..i-1-L[i].
   */
  lemma {:induction false} DepPositiveLag(pval: seq<real>, gammai: seq<real>, L: seq<int>, w0: real, lam: real, alpha: real,
                       rs: seq<bool>)
    requires |rs| <= |pval| && |rs| < |gammai| && |rs| < |L| && L[|rs|] > 0
    ensures DepCandsum(pval, lam, L[|rs|], |rs|) == CountLe(pval, 0, |rs| - L[|rs|], lam)
    ensures DepAlpha(pval, gammai, L, w0, lam, alpha, rs) ==
              Min(lam, w0 * gammai[|rs| - DepCandsum(pval, lam, L[|rs|], |rs|)])
  {
    var i := |rs|;
    var c := DepCandsum(pval, lam, L[i], i);
    assert MinInt(i - L[i], i) == i - L[i];
    var terms := Terms(gammai, i, rs, LordStar.DepVis(L[i], i), Counted(pval, lam, Lag(L[i]), i));
    DepPositiveNoTerms(gammai, rs, L[i], Counted(pval, lam, Lag(L[i]), i));
    LordRuleCases(gammai[i - c], w0, Saffron.Shrink(lam, alpha), terms);
  }

  /** Dep with L[i] > 0: nothing is visible, so there is no rejection term. */
  lemma DepPositiveNoTerms(gammai: seq<real>, rs: seq<bool>, li: int, cv: seq<bool>)
    requires li > 0 && |rs| == |cv| <= |gammai|
    ensures |Terms(gammai, |rs|, rs, LordStar.DepVis(li, |rs|), cv)| == 0
  {
    LordStar.DepVisIndices(rs, li);
    LordStar.PushedStoresIndices(rs, LordStar.DepVis(li, |rs|));
  }

  /** Async: with no arrived rejection nothing is pushed onto r. */
  lemma NothingArrivedNothingPushed(rs: seq<bool>, E: seq<int>, i: int)
    requires |rs| <= |E| && CountArrived(rs, E, i) == 0
    ensures |LordStar.Pushed(rs, LordStar.AsyncVis(E, i, |rs|))| == 0
  {
    VisibleCount(rs, E, i);
    LordStar.AsyncVisIndices(rs, E, i);
    LordStar.PushedStoresIndices(rs, LordStar.AsyncVis(E, i, |rs|));
  }

  /** Async: before any rejection has arrived the threshold is min(lambda, w0 * gammai[i - candsum]). */
  lemma {:induction false} AsyncNothingVisible(pval: seq<real>, gammai: seq<real>, E: seq<int>, w0: real, lam: real,
                                               alpha: real, rs: seq<bool>)
    requires |rs| <= |pval| && |rs| < |gammai| && |rs| <= |E| && CountArrived(rs, E, |rs|) == 0
    ensures AsyncAlpha(pval, gammai, E, w0, lam, alpha, rs) ==
              Min(lam, w0 * gammai[|rs| - AsyncCandsum(pval, E, lam, |rs|)])
  {
    var i := |rs|;
    var vis := LordStar.AsyncVis(E, i, i);
    var c := AsyncCandsum(pval, E, lam, i);
    var terms := Terms(gammai, i, rs, vis, Counted(pval, lam, Arrival(E), i));
    NothingArrivedNothingPushed(rs, E, i);
    LordRuleCases(gammai[i - c], w0, Saffron.Shrink(lam, alpha), terms);
    assert StarTilde(gammai, w0, lam, alpha, i, c, terms) == w0 * gammai[|rs| - AsyncCandsum(pval, E, lam, |rs|)];
  }

  /**
   * The vector<bool> read-back in the terms: with t the pushed indices, the
   * first term uses StoredIdx(t[0]), and every later entry reads back as 1,
   * so every later term is gammai[i - 2 - Cjplus] with Cjplus the counted
   * candidates in [2, i), whichever rejection it stands for.
   */
  lemma {:induction false} TermsShape(gammai: seq<real>, i: int, rs: seq<bool>, vis: seq<bool>, cv: seq<bool>)
    requires |rs| == |vis| <= i == |cv| <= |gammai|
    ensures var t := LordStar.VisIndices(rs, vis); var terms := Terms(gammai, i, rs, vis, cv);
            |terms| == |t| &&
            (|t| >= 1 ==> StoredIdx(t[0]) + 1 <= i &&
                          terms[0] == gammai[i - StoredIdx(t[0]) - CountFrom(cv, StoredIdx(t[0]) + 1) - 1]) &&
            (|t| >= 2 ==> i >= 2 &&
                          forall g :: 1 <= g < |t| ==> terms[g] == gammai[i - 2 - CountFrom(cv, 2)])
  {
    var t := LordStar.VisIndices(rs, vis);
    var p := LordStar.Pushed(rs, vis);
    LordStar.PushedStoresIndices(rs, vis);
    TermsAt(gammai, i, rs, vis, cv);
    if |t| >= 1 {
      BitValueOfStored(t[0]);
    }
    if |t| >= 2 {
      assert p[1] && BitValue(p[1]) == 1;
      forall g | 1 <= g < |t|
        ensures BitValue(p[g]) == 1
      {
        assert p[g];
      }
    }
  }

  /**
   * With non-negative discounts and 0 <= w0 <= (1 - lambda) * alpha, every
   * threshold min(lambda, alphaitilde) of a step i >= 1 lies in [0, lambda].
   */
  lemma StarAlphaInRange(gammai: seq<real>, w0: real, lam: real, alpha: real, i: int, candsum: int,
                         rs: seq<bool>, vis: seq<bool>, cv: seq<bool>)
    requires |rs| == |vis| <= i == |cv| < |gammai| && 0 <= candsum <= i
    requires forall k :: 0 <= k < |gammai| ==> gammai[k] >= 0.0
    requires 0.0 <= lam && 0.0 <= w0 <= Saffron.Shrink(lam, alpha)
    ensures 0.0 <= Min(lam, StarTilde(gammai, w0, lam, alpha, i, candsum, Terms(gammai, i, rs, vis, cv))) <= lam
  {
    var terms := Terms(gammai, i, rs, vis, cv);
    TermsAt(gammai, i, rs, vis, cv);
    Saffron.LordRuleNonNegative(gammai[i - candsum], w0, Saffron.Shrink(lam, alpha), terms);
  }

  /** The async thresholds of steps i >= 1 lie in [0, lambda] under the same conditions. */
  lemma AsyncAlphaInRange(pval: seq<real>, gammai: seq<real>, E: seq<int>, w0: real, lam: real, alpha: real,
                          rs: seq<bool>)
    requires |rs| <= |pval| && |rs| < |gammai| && |rs| <= |E|
    requires forall k :: 0 <= k < |gammai| ==> gammai[k] >= 0.0
    requires 0.0 <= lam && 0.0 <= w0 <= Saffron.Shrink(lam, alpha)
    ensures 0.0 <= AsyncAlpha(pval, gammai, E, w0, lam, alpha, rs) <= lam
  {
    var i := |rs|;
    StarAlphaInRange(gammai, w0, lam, alpha, i, AsyncCandsum(pval, E, lam, i),
                     rs, LordStar.AsyncVis(E, i, i), Counted(pval, lam, Arrival(E), i));
  }

  /** The dep thresholds of steps i >= 1 lie in [0, lambda] under the same conditions. */
  lemma DepAlphaInRange(pval: seq<real>, gammai: seq<real>, L: seq<int>, w0: real, lam: real, alpha: real,
                        rs: seq<bool>)
    requires |rs| <= |pval| && |rs| < |gammai| && |rs| < |L|
    requires forall k :: 0 <= k < |gammai| ==> gammai[k] >= 0.0
    requires 0.0 <= lam && 0.0 <= w0 <= Saffron.Shrink(lam, alpha)
    ensures 0.0 <= DepAlpha(pval, gammai, L, w0, lam, alpha, rs) <= lam
  {
    var i := |rs|;
    StarAlphaInRange(gammai, w0, lam, alpha, i, DepCandsum(pval, lam, L[i], i),
                     rs, LordStar.DepVis(L[i], i), Counted(pval, lam, Lag(L[i]), i));
  }

  // ---------------------------------------------------------------------
  // The batch variant. Row b of the output holds the batch[b] hypotheses at
  // positions Offset(b) .. Offset(b) + batch[b] - 1 of the flat vectors;
  // Cj[k] is the number of candidates of batch k.

  /** Cj as written after the first b batches: Cj[k] counts the candidates of batch k. */
  function BatchCj(pval: seq<real>, lam: real, batch: seq<int>, batchsum: seq<int>, b: int): (cj: seq<int>)
    requires BatchLayout(batch, batchsum, |pval|) && 0 <= b <= |batch|
    ensures |cj| == b
  {
    if b == 0 then []
    else BatchCj(pval, lam, batch, batchsum, b - 1) + [CountLe(pval, Offset(batchsum, b - 1), batchsum[b - 1], lam)]
  }

  /** Number of k in [lo, |cj|) with cj[k] != 0. */
  function CountNonzero(cj: seq<int>, lo: int): (c: nat)
    requires 0 <= lo
    ensures lo <= |cj| ==> c <= |cj| - lo
    ensures |cj| <= lo ==> c == 0
  {
    if |cj| <= lo then 0 else CountNonzero(cj[..|cj| - 1], lo) + B2I(cj[|cj| - 1] != 0)
  }

  /** Sum of an integer vector, accumulated from the left. */
  function IntSum(s: seq<int>): int
  {
    if |s| == 0 then 0 else IntSum(s[..|s| - 1]) + s[|s| - 1]
  }

  /**
   * The terms of cell g for the batches y listed by BatchList(rcum, m):
   * gammai[g - batchsum[y] - Cjplus] with Cjplus the number of batches in
   * (y, b) that hold a candidate. None if one of those reads lies outside gammai.
   */
  function BatchTerms(gammai: seq<real>, batchsum: seq<int>, rcum: seq<int>, cj: seq<int>, g: int, m: int)
    : (t: Option<seq<real>>)
    requires 0 <= m <= |rcum| <= |batchsum|
    ensures t.Some? ==> |t.value| == |LordStar.BatchList(rcum, m)|
  {
    if m == 0 then Some([])
    else
      var prev := BatchTerms(gammai, batchsum, rcum, cj, g, m - 1);
      var y := m - 1;
      if rcum[y] < y then prev
      else
        var ix := g - batchsum[y] - CountNonzero(cj, y + 1);
        if prev.None? || !(0 <= ix < |gammai|) then None else Some(prev.value + [gammai[ix]])
  }

  /** The read index of batch y in cell g. */
  function BatchIndex(batchsum: seq<int>, cj: seq<int>, g: int, y: int): int
    requires 0 <= y < |batchsum|
  {
    g - batchsum[y] - CountNonzero(cj, y + 1)
  }

  /** Every read of cell g lies inside gammai. */
  predicate BatchIndicesOk(gammai: seq<real>, batchsum: seq<int>, cj: seq<int>, g: int, r: seq<int>)
  {
    forall j :: 0 <= j < |r| ==> 0 <= r[j] < |batchsum| && 0 <= BatchIndex(batchsum, cj, g, r[j]) < |gammai|
  }

  /**
   * The threshold of cell (b, x), b = |rows| >= 1, given the rows before it:
   * min(lambda, alphaitilde) with candsum the candidates of batches 0..b-1.
   * None when the scan of rcum runs past its end or a term lies outside gammai.
   */
  function BatchCellAlpha(pval: seq<real>, gammai: seq<real>, batch: seq<int>, batchsum: seq<int>,
                          w0: real, lam: real, alpha: real, rows: seq<seq<bool>>, x: int): Option<real>
    requires BatchLayout(batch, batchsum, |pval|) && 1 <= |rows| < |batch|
    requires 0 <= x && Offset(batchsum, |rows|) + x < |gammai|
  {
    var b := |rows|;
    var rcum := LordStar.Rcum(rows, |batchsum|);
    var m := MaxOf(rcum);
    if m > |rcum| then None
    else
      var g := Offset(batchsum, b) + x;
      var candsum := CountLe(pval, 0, Offset(batchsum, b), lam);
      var t := BatchTerms(gammai, batchsum, rcum, BatchCj(pval, lam, batch, batchsum, b), g, MaxInt(m, 0));
      if t.None? then None else Some(Min(lam, StarTilde(gammai, w0, lam, alpha, g, candsum, t.value)))
  }

  /** The list and the terms agree entry by entry, and the terms exist exactly when every read is in range. */
  lemma {:induction false} BatchTermsAt(gammai: seq<real>, batchsum: seq<int>, rcum: seq<int>, cj: seq<int>,
                                        g: int, m: int)
    requires 0 <= m <= |rcum| <= |batchsum|
    ensures var r := LordStar.BatchList(rcum, m); var t := BatchTerms(gammai, batchsum, rcum, cj, g, m);
            (t.Some? <==> BatchIndicesOk(gammai, batchsum, cj, g, r)) &&
            (t.Some? ==> forall j :: 0 <= j < |r| ==> t.value[j] == gammai[BatchIndex(batchsum, cj, g, r[j])])
  {
    if m > 0 {
      var y := m - 1;
      BatchTermsAt(gammai, batchsum, rcum, cj, g, y);
      var r' := LordStar.BatchList(rcum, y);
      var t' := BatchTerms(gammai, batchsum, rcum, cj, g, y);
      if rcum[y] >= y {
        assert LordStar.BatchList(rcum, m) == r' + [y];
        BatchIndicesOkSnoc(gammai, batchsum, cj, g, r', y);
        if BatchTerms(gammai, batchsum, rcum, cj, g, m).Some? {
          BatchTermsSnoc(gammai, batchsum, cj, g, r', y, t', BatchTerms(gammai, batchsum, rcum, cj, g, m));
        }
      } else {
        assert LordStar.BatchList(rcum, m) == r';
      }
    }
  }

  /** The reads of r + [y] are in range iff those of r are and the read of y is. */
  lemma BatchIndicesOkSnoc(gammai: seq<real>, batchsum: seq<int>, cj: seq<int>, g: int, r: seq<int>, y: int)
    requires 0 <= y < |batchsum|
    ensures BatchIndicesOk(gammai, batchsum, cj, g, r + [y]) <==>
            (BatchIndicesOk(gammai, batchsum, cj, g, r) && 0 <= BatchIndex(batchsum, cj, g, y) < |gammai|)
  {
    assert forall j :: 0 <= j < |r| ==> (r + [y])[j] == r[j];
    assert (r + [y])[|r|] == y;
  }

  /** The terms grown by the read of y agree entry by entry with r + [y]. */
  lemma BatchTermsSnoc(gammai: seq<real>, batchsum: seq<int>, cj: seq<int>, g: int, r: seq<int>, y: int,
                       t': Option<seq<real>>, t: Option<seq<real>>)
    requires 0 <= y < |batchsum| && BatchIndicesOk(gammai, batchsum, cj, g, r)
    requires t'.Some? && |t'.value| == |r| &&
             forall j :: 0 <= j < |r| ==> t'.value[j] == gammai[BatchIndex(batchsum, cj, g, r[j])]
    requires 0 <= BatchIndex(batchsum, cj, g, y) < |gammai|
    requires t == Some(t'.value + [gammai[BatchIndex(batchsum, cj, g, y)]])
    ensures forall j :: 0 <= j < |r| + 1 ==> t.value[j] == gammai[BatchIndex(batchsum, cj, g, (r + [y])[j])]
  {
    forall j | 0 <= j < |r| + 1
      ensures t.value[j] == gammai[BatchIndex(batchsum, cj, g, (r + [y])[j])]
    {
      if j < |r| {
        assert (r + [y])[j] == r[j];
      } else {
        assert (r + [y])[j] == y;
      }
    }
  }

  /** Cjplus of one listed batch: the loop over k in start..to = b-1 counting Cj[k] != 0, times (b-1 >= start). */
  method BatchCjplus(Cj: seq<int>, start: int) returns (cjplus: int)
    requires 1 <= start
    ensures cjplus == CountNonzero(Cj, start)
  {
    var b := |Cj|;
    var to := b - 1;
    var sum := 0;
    var k := start;
    while k <= to
      invariant start <= k <= MaxInt(to + 1, start)
      invariant sum == CountNonzero(Cj[..MinInt(k, b)], start)
    {
      assert Cj[..k + 1][..k] == Cj[..k];
      if Cj[k] != 0 {
        sum := sum + 1;
      }
      k := k + 1;
    }
    assert Cj[..b] == Cj;
    cjplus := sum * B2I(b - 1 >= start);
  }

  /** What every cell method needs: the cell g of batch b = |Cj| and the list r of its batches. */
  ghost predicate CellReady(gammai: seq<real>, batchsum: seq<int>, Cj: seq<int>, r: seq<int>, g: int,
                            candsum: int, rcum: seq<int>, m: int)
  {
    0 <= m <= |rcum| <= |batchsum| && r == LordStar.BatchList(rcum, m) &&
    0 <= g < |gammai| && 0 <= candsum <= g
  }

  /**
   * The loop of the K > 1 branch: for every listed batch, Cjplus and the
   * read gammai[g - batchsum[r[j]] - Cjplus[j]]; ok is false at the first
   * read outside gammai. first is the j = 0 term.
   */
  method BatchCjplusSum(gammai: seq<real>, batchsum: seq<int>, Cj: seq<int>, r: seq<int>, g: int,
                        ghost rcum: seq<int>, ghost m: int)
    returns (ok: bool, s: real, first: real)
    requires 0 <= m <= |rcum| <= |batchsum| && r == LordStar.BatchList(rcum, m) && |r| >= 1
    ensures ok == BatchTerms(gammai, batchsum, rcum, Cj, g, m).Some?
    ensures ok ==> s == Sum(BatchTerms(gammai, batchsum, rcum, Cj, g, m).value) &&
                   first == BatchTerms(gammai, batchsum, rcum, Cj, g, m).value[0]
  {
    BatchTermsAt(gammai, batchsum, rcum, Cj, g, m);
    ghost var t := BatchTerms(gammai, batchsum, rcum, Cj, g, m);
    ok, s, first := BatchSumLoop(gammai, batchsum, Cj, r, g, if t.Some? then t.value else [], t.Some?);
  }

  /** The loop of BatchCjplusSum, against the terms tv read through r (meaningful when tOk). */
  method BatchSumLoop(gammai: seq<real>, batchsum: seq<int>, Cj: seq<int>, r: seq<int>, g: int,
                      ghost tv: seq<real>, ghost tOk: bool)
    returns (ok: bool, s: real, first: real)
    requires |r| >= 1 && forall k :: 0 <= k < |r| ==> 0 <= r[k] < |batchsum|
    requires tOk <==> BatchIndicesOk(gammai, batchsum, Cj, g, r)
    requires tOk ==> |tv| == |r| && forall k :: 0 <= k < |r| ==> tv[k] == gammai[BatchIndex(batchsum, Cj, g, r[k])]
    ensures ok == tOk
    ensures ok ==> s == Sum(tv) && first == tv[0]
  {
    s := 0.0;
    first := 0.0;
    var K := |r|;
    var j := 0;
    while j < K
      invariant 0 <= j <= K
      invariant forall k :: 0 <= k < j ==> 0 <= BatchIndex(batchsum, Cj, g, r[k]) < |gammai|
      invariant tOk ==> s == Sum(tv[..j]) && (j >= 1 ==> first == tv[0])
    {
      var cjplus := BatchCjplus(Cj, r[j] + 1);
      var ix := g - batchsum[r[j]] - cjplus;
      if !(0 <= ix < |gammai|) {
        return false, s, first;
      }
      if tOk {
        SumSnoc(tv, j);
      }
      if j == 0 {
        first := gammai[ix];
      }
      s := s + gammai[ix];
      j := j + 1;
    }
    assert BatchIndicesOk(gammai, batchsum, Cj, g, r);
    assert tv[..K] == tv;
    ok := true;
  }

  /** alphaitilde of a cell whose r lists two or more batches. */
  method BatchTildeMany(gammai: seq<real>, batchsum: seq<int>, w0: real, lam: real, alpha: real, Cj: seq<int>,
                        r: seq<int>, g: int, candsum: int, ghost rcum: seq<int>, ghost m: int)
    returns (ok: bool, alphaitilde: real)
    requires CellReady(gammai, batchsum, Cj, r, g, candsum, rcum, m) && |r| > 1
    ensures ok == BatchTerms(gammai, batchsum, rcum, Cj, g, m).Some?
    ensures ok ==> alphaitilde == StarTilde(gammai, w0, lam, alpha, g, candsum,
                                            BatchTerms(gammai, batchsum, rcum, Cj, g, m).value)
  {
    var sum, first;
    alphaitilde := 0.0;
    ok, sum, first := BatchCjplusSum(gammai, batchsum, Cj, r, g, rcum, m);
    if !ok {
      return;
    }
    ghost var terms := BatchTerms(gammai, batchsum, rcum, Cj, g, m).value;
    SumFirst(terms);
    var cjplussum := sum - first;
    LordRuleCases(gammai[g - candsum], w0, Saffron.Shrink(lam, alpha), terms);
    alphaitilde := LordHigh(gammai[g - candsum], w0, Saffron.Shrink(lam, alpha), first, cjplussum);
  }

  /** alphaitilde of a cell whose r lists exactly one batch. */
  method BatchTildeOne(gammai: seq<real>, batchsum: seq<int>, w0: real, lam: real, alpha: real, Cj: seq<int>,
                       r: seq<int>, g: int, candsum: int, ghost rcum: seq<int>, ghost m: int)
    returns (ok: bool, alphaitilde: real)
    requires CellReady(gammai, batchsum, Cj, r, g, candsum, rcum, m) && |r| == 1
    ensures ok == BatchTerms(gammai, batchsum, rcum, Cj, g, m).Some?
    ensures ok ==> alphaitilde == StarTilde(gammai, w0, lam, alpha, g, candsum,
                                            BatchTerms(gammai, batchsum, rcum, Cj, g, m).value)
  {
    BatchTermsOne(gammai, batchsum, rcum, Cj, g, m);
    alphaitilde := 0.0;
    var cjplus := BatchCjplus(Cj, r[0] + 1);
    var ix := g - batchsum[r[0]] - cjplus;
    if !(0 <= ix < |gammai|) {
      return false, alphaitilde;
    }
    ok := true;
    StarTildeLow(gammai, w0, lam, alpha, g, candsum, BatchTerms(gammai, batchsum, rcum, Cj, g, m).value,
                 gammai[ix]);
    alphaitilde := LordLow(gammai[g - candsum], w0, Saffron.Shrink(lam, alpha), gammai[ix]);
  }

  /** With one listed batch the terms are its single read, present iff that read is in range. */
  lemma {:induction false} BatchTermsOne(gammai: seq<real>, batchsum: seq<int>, rcum: seq<int>, Cj: seq<int>,
                                         g: int, m: int)
    requires 0 <= m <= |rcum| <= |batchsum| && |LordStar.BatchList(rcum, m)| == 1
    ensures var y := LordStar.BatchList(rcum, m)[0];
            0 <= y < |batchsum| &&
            (BatchTerms(gammai, batchsum, rcum, Cj, g, m).Some? <==> 0 <= BatchIndex(batchsum, Cj, g, y) < |gammai|) &&
            (BatchTerms(gammai, batchsum, rcum, Cj, g, m).Some? ==>
               BatchTerms(gammai, batchsum, rcum, Cj, g, m).value == [gammai[BatchIndex(batchsum, Cj, g, y)]])
  {
    BatchTermsAt(gammai, batchsum, rcum, Cj, g, m);
    var r := LordStar.BatchList(rcum, m);
    var t := BatchTerms(gammai, batchsum, rcum, Cj, g, m);
    assert BatchIndicesOk(gammai, batchsum, Cj, g, r) <==> 0 <= BatchIndex(batchsum, Cj, g, r[0]) < |gammai|;
    if t.Some? {
      assert t.value == [t.value[0]];
    }
  }

  /** With exactly one term, alphaitilde is the LordLow form on it. */
  lemma StarTildeLow(gammai: seq<real>, w0: real, lam: real, alpha: real, i: int, candsum: int,
                     terms: seq<real>, term: real)
    requires 0 <= i - candsum < |gammai| && terms == [term]
    ensures StarTilde(gammai, w0, lam, alpha, i, candsum, terms) ==
            LordLow(gammai[i - candsum], w0, Saffron.Shrink(lam, alpha), term)
  {
    LordRuleCases(gammai[i - candsum], w0, Saffron.Shrink(lam, alpha), terms);
  }

  /** alphaitilde of a cell whose r is empty: w0 * gammai[g - candsum]. */
  method BatchTildeNone(gammai: seq<real>, batchsum: seq<int>, w0: real, lam: real, alpha: real, Cj: seq<int>,
                        r: seq<int>, g: int, candsum: int, ghost rcum: seq<int>, ghost m: int)
    returns (ok: bool, alphaitilde: real)
    requires CellReady(gammai, batchsum, Cj, r, g, candsum, rcum, m) && |r| == 0
    ensures ok == BatchTerms(gammai, batchsum, rcum, Cj, g, m).Some?
    ensures ok ==> alphaitilde == StarTilde(gammai, w0, lam, alpha, g, candsum,
                                            BatchTerms(gammai, batchsum, rcum, Cj, g, m).value)
  {
    BatchTermsAt(gammai, batchsum, rcum, Cj, g, m);
    ok := true;
    LordRuleCases(gammai[g - candsum], w0, Saffron.Shrink(lam, alpha), BatchTerms(gammai, batchsum, rcum, Cj, g, m).value);
    alphaitilde := w0 * gammai[g - candsum];
  }

  /** The threshold of one cell: the three branches on K = r.size(), capped at lambda. */
  method BatchThreshold(gammai: seq<real>, batchsum: seq<int>, w0: real, lam: real, alpha: real, Cj: seq<int>,
                        r: seq<int>, g: int, candsum: int, ghost rcum: seq<int>, ghost m: int)
    returns (ok: bool, a: real)
    requires CellReady(gammai, batchsum, Cj, r, g, candsum, rcum, m)
    ensures ok == BatchTerms(gammai, batchsum, rcum, Cj, g, m).Some?
    ensures ok ==> a == Min(lam, StarTilde(gammai, w0, lam, alpha, g, candsum,
                                              BatchTerms(gammai, batchsum, rcum, Cj, g, m).value))
  {
    var K := |r|;
    var alphaitilde;
    if K > 1 {
      ok, alphaitilde := BatchTildeMany(gammai, batchsum, w0, lam, alpha, Cj, r, g, candsum, rcum, m);
    } else if K == 1 {
      ok, alphaitilde := BatchTildeOne(gammai, batchsum, w0, lam, alpha, Cj, r, g, candsum, rcum, m);
    } else {
      ok, alphaitilde := BatchTildeNone(gammai, batchsum, w0, lam, alpha, Cj, r, g, candsum, rcum, m);
    }
    a := Min(lam, alphaitilde);
  }

  /** Summing the per-batch counts of the first n batches counts the candidates before batch n. */
  lemma {:induction false} BatchCjSum(pval: seq<real>, lam: real, batch: seq<int>, batchsum: seq<int>, n: int)
    requires BatchLayout(batch, batchsum, |pval|) && 0 <= n < |batch|
    ensures IntSum(BatchCj(pval, lam, batch, batchsum, n)) == CountLe(pval, 0, Offset(batchsum, n), lam)
  {
    if n > 0 {
      BatchCjSum(pval, lam, batch, batchsum, n - 1);
      var cj := BatchCj(pval, lam, batch, batchsum, n);
      assert cj[..n - 1] == BatchCj(pval, lam, batch, batchsum, n - 1);
      BatchInRange(batch, batchsum, |pval|, n - 1);
      CountLeSplit(pval, 0, Offset(batchsum, n - 1), batchsum[n - 1], lam);
    }
  }

  /** candsum = sum(Cj): the loop over the written entries of Cj. */
  method CjTotal(Cj: seq<int>) returns (candsum: int)
    ensures candsum == IntSum(Cj)
  {
    candsum := 0;
    var k := 0;
    while k < |Cj|
      invariant 0 <= k <= |Cj| && candsum == IntSum(Cj[..k])
    {
      assert Cj[..k + 1][..k] == Cj[..k];
      candsum := candsum + Cj[k];
      k := k + 1;
    }
    assert Cj[..|Cj|] == Cj;
  }

  /**
   * Cj[b]: the loop over z in batchsum[b-1]+1 .. batchsum[b] counting cand[z-1];
   * with cand written through batch b it is the number of candidates of batch b.
   */
  method BatchCount(pval: seq<real>, lam: real, cand: seq<int>, batch: seq<int>, batchsum: seq<int>, b: int)
    returns (c: int)
    requires BatchLayout(batch, batchsum, |pval|) && 1 <= b < |batch|
    requires |cand| == |pval| && Saffron.CandWritten(pval, lam, cand, batchsum[b])
    ensures c == CountLe(pval, Offset(batchsum, b), batchsum[b], lam)
  {
    BatchInRange(batch, batchsum, |pval|, b);
    var start := batchsum[b - 1] + 1;
    var to := batchsum[b];
    c := 0;
    var z := start;
    while z <= to
      invariant start <= z <= to + 1
      invariant c == CountLe(pval, start - 1, z - 1, lam)
    {
      CountLeSnoc(pval, start - 1, z - 1, lam);
      if cand[z - 1] != 0 {
        c := c + 1;
      }
      z := z + 1;
    }
  }

  /**
   * Row b = |rows| of the batch output given the rows before it: cell x is
   * the hypothesis at Offset(b) + x, given the level gammai[x] * w0 (not capped at
   * lambda) in the first batch and at BatchCellAlpha afterwards.
   */
  ghost predicate BatchStarRow(pval: seq<real>, gammai: seq<real>, batch: seq<int>, batchsum: seq<int>,
                               w0: real, lam: real, alpha: real,
                               rows: seq<seq<bool>>, arow: seq<real>, rrow: seq<bool>)
  {
    var b := |rows|;
    BatchLayout(batch, batchsum, |pval|) && b < |batch| && |arow| == |rrow| &&
    Offset(batchsum, b) + |arow| <= |pval| <= |gammai| &&
    forall x {:trigger arow[x]} :: 0 <= x < |arow| ==>
      (if b == 0 then arow[x] == gammai[x] * w0
       else BatchCellAlpha(pval, gammai, batch, batchsum, w0, lam, alpha, rows, x) == Some(arow[x])) &&
      rrow[x] == (pval[Offset(batchsum, b) + x] <= arow[x])
  }

  /** The first batch: cand written, gammai[i] * w0, and Cj[0] = sum(cand). */
  method BatchFirstRow(pval: seq<real>, batch: seq<int>, batchsum: seq<int>, gammai: seq<real>,
                       w0: real, lam: real, alpha: real)
    returns (arow: seq<real>, rrow: seq<bool>, cand: seq<int>, cj0: int)
    requires BatchLayout(batch, batchsum, |pval|) && |gammai| >= |pval|
    ensures |arow| == batch[0] && BatchStarRow(pval, gammai, batch, batchsum, w0, lam, alpha, [], arow, rrow)
    ensures |cand| == |pval| && Saffron.CandWritten(pval, lam, cand, batchsum[0])
    ensures cj0 == CountLe(pval, 0, batch[0], lam)
  {
    BatchInRange(batch, batchsum, |pval|, 0);
    var N := |pval|;
    cand := seq(N, k => 0);
    arow := [];
    rrow := [];
    var i := 0;
    while i < batch[0]
      invariant 0 <= i <= batch[0] && |arow| == i && |rrow| == i
      invariant |cand| == N && Saffron.CandWritten(pval, lam, cand, i)
      invariant forall x {:trigger arow[x]} :: 0 <= x < i ==> arow[x] == gammai[x] * w0 && rrow[x] == (pval[x] <= arow[x])
    {
      cand := cand[i := B2I(pval[i] <= lam)];
      var a := gammai[i] * w0;
      arow := arow + [a];
      rrow := rrow + [pval[i] <= a];
      i := i + 1;
    }
    cj0 := Saffron.Recount(cand, 0, N - 1);
    Saffron.CandTotalCounts(pval, lam, cand, batch[0], 0, N - 1);
  }

  /** cand[n] = (pval[n] <= lambda): the next position of cand is written. */
  method WriteCand(pval: seq<real>, lam: real, cand: seq<int>, n: int) returns (cand': seq<int>)
    requires |cand| == |pval| && Saffron.CandWritten(pval, lam, cand, n) && 0 <= n < |cand|
    ensures |cand'| == |pval| && Saffron.CandWritten(pval, lam, cand', n + 1)
  {
    cand' := cand[n := B2I(pval[n] <= lam)];
  }

  /** One cell (b, x), b = |R| >= 1, of a later batch: rebuild r from rcum, then the threshold. */
  method BatchCell(pval: seq<real>, batch: seq<int>, batchsum: seq<int>, gammai: seq<real>,
                   w0: real, lam: real, alpha: real, R: seq<seq<bool>>, Cj: seq<int>, rcum: seq<int>,
                   candsum: int, x: int)
    returns (ok: bool, a: real)
    requires BatchLayout(batch, batchsum, |pval|) && |gammai| >= |pval| && 1 <= |R| < |batch|
    requires Cj == BatchCj(pval, lam, batch, batchsum, |R|) && rcum == LordStar.Rcum(R, |batch|)
    requires candsum == CountLe(pval, 0, Offset(batchsum, |R|), lam)
    requires 0 <= x < batch[|R|]
    ensures Offset(batchsum, |R|) + x < |gammai|
    ensures ok <==> BatchCellAlpha(pval, gammai, batch, batchsum, w0, lam, alpha, R, x).Some?
    ensures ok ==> BatchCellAlpha(pval, gammai, batch, batchsum, w0, lam, alpha, R, x) == Some(a)
  {
    BatchInRange(batch, batchsum, |pval|, |R|);
    var g := batchsum[|R| - 1] + x;
    a := 0.0;
    var m := MaxOf(rcum);
    if m > |rcum| {
      return false, a;
    }
    var r: seq<int> := [];
    if m > 0 {
      r := LordStar.BatchListOf(rcum, m);
    }
    ok, a := BatchThreshold(gammai, batchsum, w0, lam, alpha, Cj, r, g, candsum, rcum, MaxInt(m, 0));
  }

  /**
   * Batch b = |R| >= 1: rcum and candsum are computed once, then every cell
   * writes its cand entry, rebuilds r and computes its threshold. ok is false
   * when a cell reads out of range.
   */
  method BatchLaterRow(pval: seq<real>, batch: seq<int>, batchsum: seq<int>, gammai: seq<real>,
                       w0: real, lam: real, alpha: real, R: seq<seq<bool>>, cand: seq<int>, Cj: seq<int>)
    returns (arow: seq<real>, rrow: seq<bool>, cand': seq<int>, ok: bool)
    requires BatchLayout(batch, batchsum, |pval|) && |gammai| >= |pval| && 1 <= |R| < |batch|
    requires Cj == BatchCj(pval, lam, batch, batchsum, |R|)
    requires |cand| == |pval| && Saffron.CandWritten(pval, lam, cand, Offset(batchsum, |R|))
    ensures ok ==> |arow| == batch[|R|] &&
                   BatchStarRow(pval, gammai, batch, batchsum, w0, lam, alpha, R, arow, rrow) &&
                   |cand'| == |pval| && Saffron.CandWritten(pval, lam, cand', batchsum[|R|])
    ensures !ok ==> exists x :: 0 <= x < batch[|R|] &&
                      BatchCellAlpha(pval, gammai, batch, batchsum, w0, lam, alpha, R, x).None?
  {
    var b := |R|;
    var B := |batch|;
    BatchInRange(batch, batchsum, |pval|, b);
    var off := batchsum[b - 1];
    assert off == Offset(batchsum, b);
    var rcum := LordStar.RcumOf(R, B);
    var candsum := CjTotal(Cj);
    BatchCjSum(pval, lam, batch, batchsum, b);
    cand' := cand;
    arow := [];
    rrow := [];
    var x := 0;
    while x < batch[b]
      invariant 0 <= x <= batch[b] && |arow| == x && |rrow| == x
      invariant |cand'| == |pval| && Saffron.CandWritten(pval, lam, cand', off + x)
      invariant BatchStarRow(pval, gammai, batch, batchsum, w0, lam, alpha, R, arow, rrow)
    {
      cand' := WriteCand(pval, lam, cand', off + x);
      var cellOk, a := BatchCell(pval, batch, batchsum, gammai, w0, lam, alpha, R, Cj, rcum, candsum, x);
      if !cellOk {
        return arow, rrow, cand', false;
      }
      BatchRowExtend(pval, gammai, batch, batchsum, w0, lam, alpha, R, arow, rrow, a);
      arow := arow + [a];
      rrow := rrow + [pval[off + x] <= a];
      x := x + 1;
    }
    ok := true;
  }

  /** A later row grows by one cell whose threshold is BatchCellAlpha. */
  lemma BatchRowExtend(pval: seq<real>, gammai: seq<real>, batch: seq<int>, batchsum: seq<int>,
                       w0: real, lam: real, alpha: real, R: seq<seq<bool>>, arow: seq<real>, rrow: seq<bool>,
                       a: real)
    requires BatchStarRow(pval, gammai, batch, batchsum, w0, lam, alpha, R, arow, rrow) && |R| >= 1
    requires Offset(batchsum, |R|) + |arow| < |pval|
    requires BatchCellAlpha(pval, gammai, batch, batchsum, w0, lam, alpha, R, |arow|) == Some(a)
    ensures BatchStarRow(pval, gammai, batch, batchsum, w0, lam, alpha, R, arow + [a],
                         rrow + [pval[Offset(batchsum, |R|) + |arow|] <= a])
  {
    var arow' := arow + [a];
    var rrow' := rrow + [pval[Offset(batchsum, |R|) + |arow|] <= a];
    forall x | 0 <= x < |arow'|
      ensures BatchCellAlpha(pval, gammai, batch, batchsum, w0, lam, alpha, R, x) == Some(arow'[x]) &&
              rrow'[x] == (pval[Offset(batchsum, |R|) + x] <= arow'[x])
    {
      if x < |arow| {
        assert arow'[x] == arow[x] && rrow'[x] == rrow[x];
      }
    }
  }

  /** alphai and R hold the first |R| batches, each row following BatchStarRow. */
  ghost predicate IsBatchRun(pval: seq<real>, batch: seq<int>, batchsum: seq<int>, gammai: seq<real>,
                             w0: real, lam: real, alpha: real, alphai: seq<seq<real>>, R: seq<seq<bool>>)
    decreases |R|
  {
    |alphai| == |R| <= |batch| &&
    (|R| == 0 ||
     (IsBatchRun(pval, batch, batchsum, gammai, w0, lam, alpha, alphai[..|R| - 1], R[..|R| - 1]) &&
      |R[|R| - 1]| == batch[|R| - 1] &&
      BatchStarRow(pval, gammai, batch, batchsum, w0, lam, alpha, R[..|R| - 1], alphai[|R| - 1], R[|R| - 1])))
  }

  /** Every row of a run follows BatchStarRow over the rows before it. */
  lemma {:induction false} BatchRunRows(pval: seq<real>, batch: seq<int>, batchsum: seq<int>, gammai: seq<real>,
                                        w0: real, lam: real, alpha: real, alphai: seq<seq<real>>, R: seq<seq<bool>>)
    requires IsBatchRun(pval, batch, batchsum, gammai, w0, lam, alpha, alphai, R)
    ensures forall b {:trigger R[b]} :: 0 <= b < |R| ==>
              |R[b]| == batch[b] && BatchStarRow(pval, gammai, batch, batchsum, w0, lam, alpha, R[..b], alphai[b], R[b])
    decreases |R|
  {
    if |R| > 0 {
      var n := |R| - 1;
      BatchRunRows(pval, batch, batchsum, gammai, w0, lam, alpha, alphai[..n], R[..n]);
      forall b | 0 <= b < |R|
        ensures |R[b]| == batch[b] && BatchStarRow(pval, gammai, batch, batchsum, w0, lam, alpha, R[..b], alphai[b], R[b])
      {
        if b < n {
          assert alphai[..n][b] == alphai[b] && R[..n][b] == R[b] && R[..n][..b] == R[..b];
        }
      }
    }
  }

  /**
   * saffronstar_batch_faster. Row b of alphai and R holds batch b; the first
   * batch uses gammai[i] * w0 and every later one BatchCellAlpha over the
   * rows before it. ok is false, with the rows computed so far returned,
   * when a cell of the next batch would read out of range (BatchCellDefined).
   */
  method BatchFaster(pval: seq<real>, batch: seq<int>, batchsum: seq<int>, gammai: seq<real>,
                     w0: real, lam: real, alpha: real)
    returns (alphai: seq<seq<real>>, R: seq<seq<bool>>, ok: bool)
    requires BatchLayout(batch, batchsum, |pval|) && |gammai| >= |pval|
    ensures |alphai| == |R| <= |batch|
    ensures forall b {:trigger R[b]} :: 0 <= b < |R| ==>
              |R[b]| == batch[b] && BatchStarRow(pval, gammai, batch, batchsum, w0, lam, alpha, R[..b], alphai[b], R[b])
    ensures ok ==> |R| == |batch|
    ensures !ok ==> 1 <= |R| < |batch| &&
                    exists x :: 0 <= x < batch[|R|] &&
                      BatchCellAlpha(pval, gammai, batch, batchsum, w0, lam, alpha, R, x).None?
  {
    var B := |batch|;
    var arow, rrow, cand, cj0 := BatchFirstRow(pval, batch, batchsum, gammai, w0, lam, alpha);
    var Cj := [cj0];
    alphai := [arow];
    R := [rrow];
    assert alphai[..0] == [] && R[..0] == [];
    var k := 1;
    while k < B
      invariant 1 <= k <= B && |alphai| == k && |R| == k
      invariant IsBatchRun(pval, batch, batchsum, gammai, w0, lam, alpha, alphai, R)
      invariant |cand| == |pval| && Saffron.CandWritten(pval, lam, cand, batchsum[k - 1])
      invariant Cj == BatchCj(pval, lam, batch, batchsum, k)
    {
      var rowOk;
      arow, rrow, cand, rowOk := BatchLaterRow(pval, batch, batchsum, gammai, w0, lam, alpha, R, cand, Cj);
      if !rowOk {
        BatchRunRows(pval, batch, batchsum, gammai, w0, lam, alpha, alphai, R);
        return alphai, R, false;
      }
      var cjb := BatchCount(pval, lam, cand, batch, batchsum, k);
      Cj := Cj + [cjb];
      assert (alphai + [arow])[..k] == alphai && (R + [rrow])[..k] == R;
      alphai := alphai + [arow];
      R := R + [rrow];
      k := k + 1;
    }
    BatchRunRows(pval, batch, batchsum, gammai, w0, lam, alpha, alphai, R);
    ok := true;
  }

  /**
   * Cjplus counts batches, not hypotheses: the batches in [lo, n) holding a
   * candidate are at most the candidates in them (and at most n - lo).
   */
  lemma {:induction false} CjNonzeroAtMost(pval: seq<real>, lam: real, batch: seq<int>, batchsum: seq<int>,
                                           lo: int, n: int)
    requires BatchLayout(batch, batchsum, |pval|) && 0 <= lo <= n < |batch|
    ensures Offset(batchsum, lo) <= Offset(batchsum, n)
    ensures CountNonzero(BatchCj(pval, lam, batch, batchsum, n), lo) <=
            CountLe(pval, Offset(batchsum, lo), Offset(batchsum, n), lam)
    ensures CountNonzero(BatchCj(pval, lam, batch, batchsum, n), lo) <= n - lo
  {
    if n > lo {
      CjNonzeroAtMost(pval, lam, batch, batchsum, lo, n - 1);
      var cj := BatchCj(pval, lam, batch, batchsum, n);
      assert cj[..n - 1] == BatchCj(pval, lam, batch, batchsum, n - 1);
      BatchInRange(batch, batchsum, |pval|, n - 1);
      CountLeSplit(pval, Offset(batchsum, lo), Offset(batchsum, n - 1), batchsum[n - 1], lam);
    }
  }

  /** With at most b rejections before batch b >= 1 every read of a cell is in range. */
  lemma {:induction false} BatchCellInRange(pval: seq<real>, gammai: seq<real>, batch: seq<int>, batchsum: seq<int>,
                                            w0: real, lam: real, alpha: real, rows: seq<seq<bool>>, x: int)
    requires BatchLayout(batch, batchsum, |pval|) && 1 <= |rows| < |batch|
    requires 0 <= x < batch[|rows|] && Offset(batchsum, |rows|) + x < |gammai|
    requires CellsBefore(rows, |rows|) <= |rows|
    ensures BatchCellAlpha(pval, gammai, batch, batchsum, w0, lam, alpha, rows, x).Some?
  {
    var b := |rows|;
    var B := |batchsum|;
    var d := CellsBefore(rows, b);
    var rcum := LordStar.Rcum(rows, B);
    var g := Offset(batchsum, b) + x;
    var cj := BatchCj(pval, lam, batch, batchsum, b);
    LordStar.RcumMax(rows, B);
    assert MaxInt(MaxOf(rcum), 0) == d;
    BatchListInRange(pval, gammai, batch, batchsum, lam, rcum, b, x, d);
    BatchTermsAt(gammai, batchsum, rcum, cj, g, d);
    assert BatchTerms(gammai, batchsum, rcum, cj, g, d).Some?;
  }

  /** Every batch listed from rcum[..d], d <= b, is read inside gammai by cell (b, x). */
  lemma BatchListInRange(pval: seq<real>, gammai: seq<real>, batch: seq<int>, batchsum: seq<int>, lam: real,
                         rcum: seq<int>, b: int, x: int, d: int)
    requires BatchLayout(batch, batchsum, |pval|) && 1 <= b < |batch| && |rcum| == |batchsum|
    requires 0 <= x && Offset(batchsum, b) + x < |gammai| && 0 <= d <= b && d <= |rcum|
    ensures BatchIndicesOk(gammai, batchsum, BatchCj(pval, lam, batch, batchsum, b), Offset(batchsum, b) + x,
                           LordStar.BatchList(rcum, d))
  {
    var r := LordStar.BatchList(rcum, d);
    forall j | 0 <= j < |r|
      ensures 0 <= r[j] < |batchsum|
      ensures 0 <= BatchIndex(batchsum, BatchCj(pval, lam, batch, batchsum, b), Offset(batchsum, b) + x, r[j]) < |gammai|
    {
      BatchIndexInRange(pval, lam, batch, batchsum, gammai, b, x, r[j]);
    }
  }

  /** The read of a batch y < b in cell (b, x) lies inside gammai. */
  lemma BatchIndexInRange(pval: seq<real>, lam: real, batch: seq<int>, batchsum: seq<int>, gammai: seq<real>,
                          b: int, x: int, y: int)
    requires BatchLayout(batch, batchsum, |pval|) && 0 <= y < b < |batch|
    requires 0 <= x && Offset(batchsum, b) + x < |gammai|
    ensures 0 <= BatchIndex(batchsum, BatchCj(pval, lam, batch, batchsum, b), Offset(batchsum, b) + x, y) < |gammai|
  {
    CjNonzeroAtMost(pval, lam, batch, batchsum, y + 1, b);
    BatchsumMonotone(batch, batchsum, |pval|, y, b - 1);
    assert Offset(batchsum, y + 1) == batchsum[y];
  }

  /**
   * With more than b rejections before batch b >= 1 a cell has no threshold:
   * the scan of rcum runs past its B entries, or y = b is listed in r and
   * its read g - batchsum[b] - 0 lies before the start of gammai.
   */
  lemma BatchCellOverrun(pval: seq<real>, gammai: seq<real>, batch: seq<int>, batchsum: seq<int>,
                         w0: real, lam: real, alpha: real, rows: seq<seq<bool>>, x: int)
    requires BatchLayout(batch, batchsum, |pval|) && 1 <= |rows| < |batch|
    requires 0 <= x < batch[|rows|] && Offset(batchsum, |rows|) + x < |gammai|
    requires CellsBefore(rows, |rows|) > |rows|
    ensures BatchCellAlpha(pval, gammai, batch, batchsum, w0, lam, alpha, rows, x).None?
  {
    var b := |rows|;
    var B := |batchsum|;
    var d := CellsBefore(rows, b);
    var rcum := LordStar.Rcum(rows, B);
    var g := Offset(batchsum, b) + x;
    var cj := BatchCj(pval, lam, batch, batchsum, b);
    LordStar.RcumMax(rows, B);
    if d <= B {
      BatchListHasB(batch, batchsum, |pval|, gammai, cj, rows, x);
      BatchTermsAt(gammai, batchsum, rcum, cj, g, d);
      assert MaxInt(MaxOf(rcum), 0) == d;
    }
  }

  /** The negative read of BatchCellOverrun: y = b is listed in r, and g - batchsum[b] < 0. */
  lemma BatchListHasB(batch: seq<int>, batchsum: seq<int>, n: int, gammai: seq<real>, cj: seq<int>,
                      rows: seq<seq<bool>>, x: int)
    requires BatchLayout(batch, batchsum, n) && 1 <= |rows| < |batch| && |cj| == |rows|
    requires 0 <= x < batch[|rows|]
    requires |rows| < CellsBefore(rows, |rows|) <= |batchsum|
    ensures !BatchIndicesOk(gammai, batchsum, cj, Offset(batchsum, |rows|) + x,
                            LordStar.BatchList(LordStar.Rcum(rows, |batchsum|), CellsBefore(rows, |rows|)))
  {
    var b := |rows|;
    var d := CellsBefore(rows, b);
    var rcum := LordStar.Rcum(rows, |batchsum|);
    var r := LordStar.BatchList(rcum, d);
    BatchInRange(batch, batchsum, n, b);
    assert MinInt(b + 1, b) == b;
    assert rcum[b] == d;
    LordStar.BatchListMembers(rcum, d, b);
    var j :| 0 <= j < |r| && r[j] == b;
    assert BatchIndex(batchsum, cj, Offset(batchsum, b) + x, r[j]) < 0;
  }

  /** A cell of batch b >= 1 has a threshold exactly when the rows before it hold at most b rejections. */
  lemma BatchCellDefined(pval: seq<real>, gammai: seq<real>, batch: seq<int>, batchsum: seq<int>,
                         w0: real, lam: real, alpha: real, rows: seq<seq<bool>>, x: int)
    requires BatchLayout(batch, batchsum, |pval|) && 1 <= |rows| < |batch|
    requires 0 <= x < batch[|rows|] && Offset(batchsum, |rows|) + x < |gammai|
    ensures BatchCellAlpha(pval, gammai, batch, batchsum, w0, lam, alpha, rows, x).Some? <==>
            CellsBefore(rows, |rows|) <= |rows|
  {
    if CellsBefore(rows, |rows|) <= |rows| {
      BatchCellInRange(pval, gammai, batch, batchsum, w0, lam, alpha, rows, x);
    } else {
      BatchCellOverrun(pval, gammai, batch, batchsum, w0, lam, alpha, rows, x);
    }
  }

  /**
   * With non-negative discounts and 0 <= w0 <= (1 - lambda) * alpha, every
   * threshold of a later batch lies in [0, lambda] (the first batch is not capped).
   */
  lemma BatchCellBounds(pval: seq<real>, gammai: seq<real>, batch: seq<int>, batchsum: seq<int>,
                        w0: real, lam: real, alpha: real, rows: seq<seq<bool>>, x: int, a: real)
    requires BatchLayout(batch, batchsum, |pval|) && 1 <= |rows| < |batch|
    requires 0 <= x && Offset(batchsum, |rows|) + x < |gammai|
    requires forall k :: 0 <= k < |gammai| ==> gammai[k] >= 0.0
    requires 0.0 <= lam && 0.0 <= w0 <= Saffron.Shrink(lam, alpha)
    requires BatchCellAlpha(pval, gammai, batch, batchsum, w0, lam, alpha, rows, x) == Some(a)
    ensures 0.0 <= a <= lam
  {
    var b := |rows|;
    var rcum := LordStar.Rcum(rows, |batchsum|);
    var m := MaxInt(MaxOf(rcum), 0);
    var g := Offset(batchsum, b) + x;
    var cj := BatchCj(pval, lam, batch, batchsum, b);
    BatchTermsAt(gammai, batchsum, rcum, cj, g, m);
    var terms := BatchTerms(gammai, batchsum, rcum, cj, g, m).value;
    var candsum := CountLe(pval, 0, Offset(batchsum, b), lam);
    Saffron.LordRuleNonNegative(gammai[g - candsum], w0, Saffron.Shrink(lam, alpha), terms);
  }
}
