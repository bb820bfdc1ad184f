# onlineFDR threshold recurrences in Dafny

onlineFDR controls the false discovery rate over a stream of hypotheses.
p-values arrive one at a time. Each procedure turns the history of decisions
into a test level `alphai[i]`, and hypothesis `i` is rejected when
`pval[i] <= alphai[i]`. The C++ `*_faster` kernels compute these levels with
loops and running counters. This project models each kernel as a Dafny
method with the same loop and the same counters. It proves every method
against a declarative specification function. That function states the
level at step `i` as a function of the inputs and of the earlier decisions
`R[..i]`, counting with `CountLe`, `Rejected`, `Visible` and friends.
The source's candidate threshold `lambda` is the parameter `lam` in the
Dafny code, and its loop bound `from` is `start`. The prose below keeps
the source's names.

The main contract of each kernel has the same shape: for every step `k`,
`alphai[k]` equals the specification applied to `R[..k]`, and
`R[k] == (pval[k] <= alphai[k])`. Separate lemmas prove the things the
procedures promise about that specification:
- first thresholds;
- what happens with no rejections;
- how the variants relate;
- ceilings such as `alphai <= lambda`;
- how the asynchronous and dependent versions reduce to the synchronous ones;
- how a batch of size one reduces to LOND.

Modules follow the source files:

| module | file |
|---|---|
| `Common` | arithmetic and counting helpers shared by all kernels |
| `Lond` | src/lond.cpp |
| `LondStar` | src/londstar.cpp (async, dep, batch) |
| `OnlineFallback` | src/online_fallback.cpp |
| `AddisSpending` | src/addis_spending.cpp (plain, dep) |
| `Lord` | src/lord.cpp (versions 1, 2, 3 and 4) |
| `LordStar` | src/lordstar.cpp (async, dep, batch) |
| `Saffron` | src/saffron.cpp |
| `RSaffron` | R/saffron.cpp (`saffron_faster` duplicate, `saffron_rcpp_full`) |
| `SaffronStar` | src/saffronstar.cpp (async, dep, batch) |
| `Addis` | src/addis.cpp (sync, async) |
| `AlphaInvesting` | src/alphainvesting.cpp |
| `BatchPrds` | src/batchprds.cpp helpers |

Real numbers replace doubles. Integer counters are unbounded `int`s.

## Model

| member | source | states |
|---|---|---|
| Common.StoredIdx | src/lordstar.cpp:27-37 | an index pushed into a `std::vector<bool>` reads back as 1 unless it was 0; the result is 0 exactly when the index is 0 |
| Common.BitValueOfStored | src/lordstar.cpp:27-37 | reading back a stored index gives `StoredIdx` of it |
| Common.DepTestIsDepVisible | src/londstar.cpp:57 | the dependent test `j <= j - L[i]` holds exactly when `L[i] <= 0`, for every `j` |
| Common.RejectedExactly | src/lord.cpp:42-43 | the rejection list holds exactly the indices of the true decisions, in increasing order |
| Common.RejectedIncreasing | src/lord.cpp:42-43 | the rejection list is strictly increasing and stays inside the history |
| Common.RejectedAreRejections | src/lord.cpp:42-43 | every listed index is a rejection |
| Common.RejectionsListed | src/lord.cpp:42-43 | every rejection appears in the list of rejection indices (its length, `CountTrue`, is stated by `Rejected` itself) |
| Common.RejectedSnoc | src/lord.cpp:76-79 | appending a decision appends its index to the rejection list exactly when it is a rejection |
| Common.Visible | src/londstar.cpp:24-30 | the asynchronous visible list holds exactly the rejections `j` whose `E[j] - 1 <= i - 1` |
| Common.VisibleCount | src/londstar.cpp:24-30 | the number of arrived rejections equals the length of the visible list |
| Common.CountArrivedAntitone | src/londstar.cpp:24-30 | later finishing times never increase the arrived count |
| Common.CountLeDifference | src/saffron.cpp:71-77 | counts over two thresholds differ by the count in between |
| Common.CountLeSplit | src/saffron.cpp:71-77 | a count over `[lo, hi)` splits at any midpoint |
| Common.CellsBeforeMonotone | src/londstar.cpp:88-96 | the rejections before batch `a` are at most those before batch `b >= a` |
| Common.BatchsumMonotone | src/londstar.cpp:97-100 | cumulative batch sizes are non-decreasing |
| Common.RunOfRows | src/lord.cpp:76-79 | a recursive run predicate gives both per-step facts: the level is the rule on the prefix, and the decision compares the p-value with it |
| Lond.LondFaster | src/lond.cpp:23-65 | each `alphai[k]` is the LOND level of the decisions before `k` in the chosen variant; each `R[k]` is `pval[k] <= alphai[k]`; the first level is `betai[0]` |
| Lond.LondStep | src/lond.cpp:40-58 | one iteration writes the next level and decision and advances the discovery count `D` |
| Lond.LondFirstThreshold | src/lond.cpp:33-34 | the first level is `betai[0]` in both variants |
| Lond.LondThresholdFloor | src/lond.cpp:43 | for `betai[i] >= 0`, a LOND level is never below `betai[i]` |
| Lond.LondNoDiscoveries | src/lond.cpp:43 | with no discoveries yet, both variants give `betai[i]` |
| Lond.LondVariantsAfterDiscovery | src/lond.cpp:43-53 | after at least one discovery, the original variant (`D + 1`) exceeds the alternate one (`max(D, 1)`) by exactly `betai[i]` |
| Lond.LondValueMonotone | src/lond.cpp:43-53 | for `b >= 0`, more discoveries never lower the level, in either variant (`b * max(D, 1)` and `b * (D + 1)`) |
| Lond.LondWorkedExample | src/lond.cpp:23-65 | a four-step instance gives levels `[0.1, 0.1, 0.1, 0.15]` and decisions `[true, false, true, false]` |
| LondStar.CountArrivedRejections | src/londstar.cpp:24-30 | the inner loop counts exactly the rejections that have arrived by step `i` |
| LondStar.CountDepRejections | src/londstar.cpp:55-59 | the inner loop of the dependent version counts the rejections that pass the lag test |
| LondStar.AsyncFaster | src/londstar.cpp:11-39 | each level is `betai[k]` scaled by `max(D, 1)`, where `D` is the number of arrived rejections; each decision compares against it |
| LondStar.DepFaster | src/londstar.cpp:42-70 | each level is `betai[k]` scaled by `max(D, 1)`, where `D` is the number of rejections that pass the lag test |
| LondStar.AsyncNothingVisible | src/londstar.cpp:24-33 | when no rejection has arrived, the level is `betai[i]` |
| LondStar.AsyncLaterArrivalNoLarger | src/londstar.cpp:24-33 | for `betai[i] >= 0`, later finishing times give no larger arrived count and no larger level |
| LondStar.DepPositiveLag | src/londstar.cpp:57-62 | with a positive lag nothing is counted, so the level is `betai[i]` |
| LondStar.DepTestMeaning | src/londstar.cpp:57 | the test `j <= j - L[i]` is independent of `j` and means `L[i] <= 0` |
| LondStar.CountCells | src/londstar.cpp:88-96 | the loop counts the rejections in all earlier batches |
| LondStar.BatchFaster | src/londstar.cpp:73-105 | each batch row has the batch's length, and its cells use the rejections of all earlier batches |
| LondStar.BatchFirst | src/londstar.cpp:83-86 | the cells of the first batch are `betai[x]` |
| LondStar.BatchCountEarlierRowsOnly | src/londstar.cpp:88-96 | the count for batch `b` depends only on earlier rows |
| LondStar.CellsBeforeColumn | src/londstar.cpp:88-96 | with singleton batches, the earlier-rows count is the count of the column of decisions |
| LondStar.SingletonRowIsLond | src/londstar.cpp:97-100 | a singleton batch row is the alternate-variant LOND step on the column of earlier decisions |
| LondStar.SingletonBatchesAreLond | src/londstar.cpp:73-105 | with all batches of size one, the batch procedure coincides with alternate-variant LOND |
| OnlineFallback.FallbackFaster | src/online_fallback.cpp:9-28 | `alphai[0] = alpha * gammai[0]`; each later level is `alpha * gammai[i]` plus the previous level when the previous hypothesis was rejected; each decision compares against it |
| OnlineFallback.FallbackNoCarry | src/online_fallback.cpp:21 | after a non-rejection, the level is just `alpha * gammai[i]` |
| OnlineFallback.FallbackBounds | src/online_fallback.cpp:17-23 | for `alpha >= 0` and a non-negative `gammai`, a level lies between `alpha * gammai[i]` and `alpha` times the sum of `gammai[0..i]` |
| OnlineFallback.FallbackWorkedExample | src/online_fallback.cpp:17-23 | a three-step instance gives levels `0.025`, `0.04` and `0.01`, and the decisions `pval[k] <= alphai[k]` reject, accept, reject |
| AddisSpending.SpendIndex | src/addis_spending.cpp:21-25 | the discount index at step `i` (the number of earlier p-values in `(lambda, tau]`) is at most `i` |
| AddisSpending.AddisSpendingFaster | src/addis_spending.cpp:8-33 | each level is `alpha * (tau - lambda)` times `gammai` at the number of earlier p-values in `(lambda, tau]`; each decision compares against it |
| AddisSpending.SpendIndexStep | src/addis_spending.cpp:26-28 | the index grows by one exactly when the last p-value lies in `(lambda, tau]` |
| AddisSpending.SpendIndexMonotone | src/addis_spending.cpp:24-29 | the index never decreases over time |
| AddisSpending.SpendThresholdsNonIncreasing | src/addis_spending.cpp:25 | for `alpha >= 0`, `lambda <= tau` and a non-increasing gamma sequence, the levels never increase over time |
| AddisSpending.SpentIsDiscountPrefix | src/addis_spending.cpp:24-29 | the level spent on all p-values in `(lambda, tau]` so far is `alpha * (tau - lambda)` times a prefix sum of the gamma sequence |
| AddisSpending.SpentWithinBudget | src/addis_spending.cpp:24-29 | for `alpha >= 0`, `lambda <= tau` and a non-negative gamma sequence summing to at most one, the total spent is at most `alpha * (tau - lambda)` |
| AddisSpending.DepHi | src/addis_spending.cpp:55-65 | for `L[i] >= 0`, the counting window of the dependent version ends within the history |
| AddisSpending.DepIndex | src/addis_spending.cpp:67 | for `L[i] >= 0`, the dependent index `1 + min(L[i]-1, i-1) + selectsum - candsum` lies in `[0, i + 1]` |
| AddisSpending.CountWindow | src/addis_spending.cpp:55-65 | the window loop counts the selections and the candidates up to `maxL` |
| AddisSpending.DepGammaIndex | src/addis_spending.cpp:55-67 | given `L[i] >= 0`, `lambda <= tau` and the selection and candidate flags of the earlier p-values, the computed index is `DepIndex` |
| AddisSpending.AddisSpendingDepFaster | src/addis_spending.cpp:36-75 | each level is `alpha * (tau - lambda)` times `gammai` at the dependent index; each decision compares against it |
| AddisSpending.DepFirstThreshold | src/addis_spending.cpp:49 | for `L[0] >= 0`, the first dependent index is 0 |
| AddisSpending.DepWindowRespectsLag | src/addis_spending.cpp:57-58 | for `L[i] >= 0`, the window never reaches past `i - L[i]`, and it is empty when `L[i] >= i` |
| AddisSpending.DepZeroLagIsPlain | src/addis_spending.cpp:36-75 | with all lags zero, the dependent level is the plain level |
| AddisSpending.SpendCountersGoNegative | src/addis_spending.cpp:21-25 | with `tau < pval[0] <= lambda`, `selectsum - candsum` is `-1` after step 0, so the read at step 1 would leave `gammai` |
| AddisSpending.DepIndexReachesPastLastStep | src/addis_spending.cpp:67 | the dependent index can equal `i + 1`, so the source reads one gamma entry past the last step |
| Lord.GapTerms | src/lord.cpp:59-73 | there is one version-1 term per rejection |
| Lord.GapTermsAt | src/lord.cpp:64-71 | the term of rejection `j` is `gammai[i - tau_j - 1]` |
| Lord.TauShape | src/lord.cpp:42-43 | `tau` has `max(K, 1)` entries, is increasing, and, once something is rejected, lists rejections |
| Lord.GapSum | src/lord.cpp:64-71 | the loop sums the terms |
| Lord.LordUpdateTau | src/lord.cpp:76-79 | the update yields the rejection list of the extended history |
| Lord.Lord1Threshold | src/lord.cpp:47-73 | the branches `K <= 1` and `K > 1` compute the version-1 level |
| Lord.Lord1Step | src/lord.cpp:42-79 | one iteration keeps `tau` equal to the rejection list and computes the version-1 level |
| Lord.Lord1First | src/lord.cpp:39-40 | the first level is `gammai[0] * w0` |
| Lord.Lord1Faster | src/lord.cpp:37-81 | each level is the version-1 LORD level of the earlier decisions; each decision compares against it |
| Lord.Lord1GapIndexInRange | src/lord.cpp:64-71 | every gamma index read lies in `[0, i - 1]` |
| Lord.Lord1NoRejection | src/lord.cpp:47-57 | with no rejection, the level is `w0 * gammai[i]` |
| Lord.LordRuleCases | src/lord.cpp:47-73 | the rule has three cases: no terms, one term (`w0` replaced by `alpha - w0`) and many terms |
| Lord.Lord1Formula | src/lord.cpp:72 | the many-rejections level is `gammai[i]*w0 + (alpha - w0)*gammai[i-tau_1-1] + alpha * (rest of the terms)` |
| Lord.DiscardTerms | src/lord.cpp:100-128 | there is one version-2 term per rejection |
| Lord.DiscardTermsAt | src/lord.cpp:105-117 | the term of rejection `j` is `gammai` at the number of selected p-values after it |
| Lord.Cumsum | src/lord.cpp:90-91 | `S[k]` counts the selections among `0..k` |
| Lord.CountSelected | src/lord.cpp:105-117 | the loop counts selections below `hi` |
| Lord.KappaStar | src/lord.cpp:105-117 | entry `j` of `kappaistar` is the selection count through `kappai[j]` |
| Lord.DiscardSum | src/lord.cpp:119-126 | the loop sums the discard terms |
| Lord.Lord2ManyTilde | src/lord.cpp:100-128 | the `K > 1` branch computes the rule on the discard terms at rate `taud * alpha` |
| Lord.Lord2OneTilde | src/lord.cpp:130-140 | the `K == 1` branch succeeds exactly when the index `S[i-1] - kappaistar - 1` (with `kappaistar` counting selections strictly before the rejection) is not negative, and then computes the rule with the one term read there |
| Lord.Lord2Threshold | src/lord.cpp:100-148 | the level is the level as written (`Lord2Written`), and it fails exactly when that level reads outside `gammai` |
| Lord.Lord2Step | src/lord.cpp:96-152 | one iteration updates `kappai`, computes the level as written and the decision, or fails exactly when the level reads outside `gammai` |
| Lord.Lord2Faster | src/lord.cpp:85-154 | each level is the as-written level of the earlier decisions and each decision compares against it; the run completes exactly when `N == 1` or not `taud < pval[0] <= gammai[0] * w0`, and otherwise stops where the `K == 1` read leaves `gammai`; on a complete run every level is the corrected level `Lord2Alpha`; every later rejected p-value is at most `taud` |
| Lord.Lord2RunFacts | src/lord.cpp:142-150 | a version-2 run gives the per-step level, the decision and the `taud` bound on the rejections after step 0 |
| Lord.Lord2Advance | src/lord.cpp:96-152 | one loop iteration extends the run state by one step, or leaves it unchanged exactly when the next as-written level is undefined |
| Lord.Lord2Outcome | src/lord.cpp:130-140 | a run stops early exactly when `N > 1` and `taud < pval[0] <= gammai[0] * w0`; a complete run agrees with `Lord2Alpha` at every step |
| Lord.Lord2WrittenCeiling | src/lord.cpp:148 | every as-written level after step 0 is at most `taud` |
| Lord.Lord2NoneIsFirst | src/lord.cpp:130-140 | the as-written level is undefined only when the single rejection is at step 0 with `taud < pval[0]`, which needs `pval[0] <= gammai[0] * w0` |
| Lord.Lord2FirstUnselected | src/lord.cpp:130-140 | after a rejection at step 0 with `taud < pval[0]`, step 1 reads `gammai[-1]`: the as-written level is undefined |
| Lord.Lord2WrittenIsCorrected | src/lord.cpp:100-140 | when the single rejection is selected, the as-written level equals the corrected level `Lord2Alpha` |
| Lord.Lord2TermsCorrected | src/lord.cpp:130-140 | when the single rejection is selected, the `K == 1` term is the one the `K > 1` rule would read |
| Lord.Lord2UnselectedIndex | src/lord.cpp:105-140 | for an unselected rejection the `K == 1` index is one below the `K > 1` index (which counts the rejection's own position inclusively) |
| Lord.Lord2Ceiling | src/lord.cpp:148 | every version-2 level is at most `taud` |
| Lord.Lord2SingleIndex | src/lord.cpp:130-140 | for a selected rejection (`pval[t] <= taud`), the one-rejection index `S[i-1] - kappaistar - 1` is the number of selections after the rejection |
| Lord.Lord2ClockBound | src/lord.cpp:90-91 | the selection count is within `[0, i]` |
| Lord.LastTrue | src/lord.cpp:159-166 | the last rejection (with the sentinel at 0) lies inside the history |
| Lord.LastTrueIsLast | src/lord.cpp:170-179 | `LastTrue` is a rejection, and nothing after it is |
| Lord.Wealth34 | src/lord.cpp:170-179 | the wealth sequence has one entry per step and starts at `w0` |
| Lord.Wealth34Snoc | src/lord.cpp:178 | the next wealth is the previous wealth minus the level spent plus the reward earned |
| Lord.Lord34Tau | src/lord.cpp:170-173 | `taumax` is the last rejection, and it is the largest entry of `tau` |
| Lord.Lord34Threshold | src/lord.cpp:174-176 | the level is the version-3 or version-4 level and the decision compares against it |
| Lord.Lord34Wealth | src/lord.cpp:178 | the wealth update yields the next wealth entry |
| Lord.Lord34Faster | src/lord.cpp:158-210 | each level is the version-3 (`dep` false) or version-4 (`dep` true) level of the history, with a leading sentinel rejection; each decision compares against it |
| Lord.Lord34Advance | src/lord.cpp:170-207 | one iteration of the versions 3 and 4 loop keeps the run state (levels, shifted decisions, wealth and `tau` of the history) with one more step |
| Lord.Lord34Rows | src/lord.cpp:158-210 | a version-3/4 run gives the per-step level and decision |
| Lord.Lord34First | src/lord.cpp:159-166 | the first level is `gammai[0] * w0` |
| Lord.Lord34TaumaxRange | src/lord.cpp:174 | the gamma index `i - taumax` read at step `i` is in range |
| Lord.Lord34NoRejection | src/lord.cpp:174 | with no rejection after the sentinel, the level is `gammai[i] * w0` |
| Lord.Wealth34Last | src/lord.cpp:178 | the last wealth entry follows from the previous one by the update |
| Lord.Wealth4Balance | src/lord.cpp:202-206 | version-4 wealth equals `w0` minus everything spent plus `b0` per rejection |
| Lord.Wealth3Balance | src/lord.cpp:174-178 | version-3 wealth equals `w0` minus everything spent plus the rewards earned, including the delayed first one |
| LordStar.Pushed | src/lordstar.cpp:31-37 | the pushed vector is no longer than the history |
| LordStar.StarTermsAt | src/lordstar.cpp:52-63 | every term reads `gammai[i - stored - 1]` within range, and every entry after the first is stored as 1 |
| LordStar.PushArrived | src/lordstar.cpp:31-37 | the rebuild loop pushes the arrived rejections |
| LordStar.PushDep | src/lordstar.cpp:95-98 | the dependent rebuild pushes the rejections that pass the lag test |
| LordStar.StarThreshold | src/lordstar.cpp:39-63 | the branches compute the LORD rule on the pushed terms |
| LordStar.StarGammaiSum | src/lordstar.cpp:57-59 | the loop sums the terms after the first |
| LordStar.AsyncFaster | src/lordstar.cpp:13-70 | each level is the asynchronous LORD level of the earlier decisions; each decision compares against it |
| LordStar.DepFaster | src/lordstar.cpp:73-131 | each level is the dependent LORD level; each decision compares against it |
| LordStar.PushedStoresIndices | src/lordstar.cpp:27-37 | the pushed vector has one entry per visible rejection, storing whether its index is non-zero |
| LordStar.AsyncVisIndices | src/lordstar.cpp:35 | the asynchronous filter keeps exactly the arrived rejections |
| LordStar.DepVisIndices | src/lordstar.cpp:95 | the dependent filter keeps all rejections when `L[i] <= 0`, and none otherwise |
| LordStar.StarTermsShape | src/lordstar.cpp:52-63 | the first term reads `gammai[i - StoredIdx(t_0) - 1]`; the remaining terms add up to `(K - 1) * gammai[i - 2]` |
| LordStar.StarTermsRest | src/lordstar.cpp:57-59 | the terms after the first add up to `(K - 1) * gammai[i - 2]` |
| LordStar.DepPositiveLag | src/lordstar.cpp:95-123 | with a positive lag, the dependent level is `w0 * gammai[i]` |
| LordStar.AsyncNothingVisible | src/lordstar.cpp:31-50 | with no arrived rejection, the level is `w0 * gammai[i]` |
| LordStar.Rcum | src/lordstar.cpp:161-162 | `rcum` has one entry per batch |
| LordStar.BatchList | src/lordstar.cpp:166-173 | the list `r` holds batch indices below the current count |
| LordStar.BatchTermsAt | src/lordstar.cpp:175-196 | batch terms exist exactly when every index `g - batchsum[r_j]` is in range, and they read those entries |
| LordStar.BatchListMembers | src/lordstar.cpp:166-173 | `y` is in `r` exactly when `y < m` and `rcum[y] >= y` |
| LordStar.RcumMax | src/lordstar.cpp:161-162 | the largest entry of `rcum` is the number of rejections in the earlier rows |
| LordStar.BatchCellOverrun | src/lordstar.cpp:166-196 | when the earlier rejections outnumber the earlier batches, the cell level would read out of range |
| LordStar.BatchCellInRange | src/lordstar.cpp:166-196 | otherwise every read is in range and the cell level is defined |
| LordStar.BatchCellDefined | src/lordstar.cpp:164-198 | a cell level is defined exactly when the earlier rejections are at most the number of earlier batches |
| LordStar.RcumOf | src/lordstar.cpp:161-162 | the loop computes the cumulative rejection counts |
| LordStar.BatchListOf | src/lordstar.cpp:166-173 | the loop builds the list `r` |
| LordStar.BatchThreshold | src/lordstar.cpp:175-196 | the cell threshold is defined exactly when it is in range, and it is the LORD rule on the batch terms |
| LordStar.BatchThresholdLow | src/lordstar.cpp:175-185 | with at most one earlier rejected batch, the cell threshold is defined exactly when its read is in range, and it is the LORD rule on the batch terms |
| LordStar.BatchThresholdHigh | src/lordstar.cpp:186-195 | with two or more, the same, with the sum over the later terms |
| LordStar.BatchGammaiSum | src/lordstar.cpp:187-191 | the loop sums the terms after the first, and reports an index out of range |
| LordStar.BatchFirstRow | src/lordstar.cpp:156-159 | the first batch is `gammai[x] * w0` per cell |
| LordStar.BatchLaterRow | src/lordstar.cpp:164-198 | a later row holds the cell levels, or fails exactly at a cell whose level is undefined |
| LordStar.BatchFaster | src/lordstar.cpp:134-203 | every computed row matches the batch specification; it stops early only at a cell whose reads leave `gammai` |
| LordStar.BatchFirst | src/lordstar.cpp:156-159 | a first-batch cell is `gammai[x] * w0` and its decision compares against it |
| Saffron.SaffronIndex | src/saffron.cpp:81-82 | the gamma index of rejection `t` lies in `[0, i - t)` |
| Saffron.SaffronTermsAt | src/saffron.cpp:63-82 | the term of rejection `j` is `gammai` at `i - tau_j - Cjplus_j - 1` |
| Saffron.CandTotalCounts | src/saffron.cpp:71-77 | summing the written candidate flags counts p-values at most `lambda` |
| Saffron.RecountIsCount | src/saffron.cpp:71-77 | the recount over `[tau, i - 1]` is the candidate count after `tau` |
| Saffron.Recount | src/saffron.cpp:71-77 | the loop sums the candidate flags |
| Saffron.IncrementCjplus | src/saffron.cpp:63-69 | the increment loop updates the older counts and sums their terms |
| Saffron.SaffronMany | src/saffron.cpp:58-83 | the `K > 1` branch computes every count and the unclamped level on all terms |
| Saffron.FinishMany | src/saffron.cpp:71-82 | the recount sets the last count and the formula gives the unclamped level |
| Saffron.CappedIsSaffron | src/saffron.cpp:97 | the final level is `min(lambda, tilde)` |
| Saffron.LastRejection | src/saffron.cpp:60-61 | the last pushed index is the largest rejection |
| Saffron.SaffronOne | src/saffron.cpp:84-92 | the `K == 1` branch counts candidates after the single rejection |
| Saffron.SaffronNone | src/saffron.cpp:93-95 | the `K == 0` branch gives `(1 - lambda) * w0 * gammai[i - candsum]` |
| Saffron.StepMany | src/saffron.cpp:58-83 | the `K > 1` branch keeps the counts correct and gives the SAFFRON level |
| Saffron.StepOne | src/saffron.cpp:84-92 | the `K == 1` branch keeps the counts correct and gives the SAFFRON level |
| Saffron.StepNone | src/saffron.cpp:93-95 | the `K == 0` branch gives the SAFFRON level |
| Saffron.MarkCandidate | src/saffron.cpp:54-55 | the candidate flag and the running candidate count are updated |
| Saffron.SaffronThreshold | src/saffron.cpp:58-97 | the three branches give the SAFFRON level and keep the counts |
| Saffron.SaffronStep | src/saffron.cpp:52-101 | one iteration keeps the candidates, `tau` and the counts, and computes the level |
| Saffron.SaffronFirst | src/saffron.cpp:40 | the first level is `min((1 - lambda) * gammai[0] * w0, lambda)` |
| Saffron.SaffronFaster | src/saffron.cpp:28-106 | each level is the SAFFRON level of the earlier decisions, at most `lambda`; each decision compares against it |
| Saffron.SaffronBaseIndexInRange | src/saffron.cpp:81 | the base index `i - candsum` is within `[0, i]` |
| Saffron.SaffronFormula | src/saffron.cpp:81-82 | the many-rejections level is `(1-lambda)` times the LORD-shaped combination of `gammai[i - candsum]`, the first term and the rest |
| Saffron.SaffronWithoutCandidates | src/saffron.cpp:52-97 | when no p-value is at most `lambda`, the unclamped level is `(1 - lambda)` times the version-1 LORD level |
| Saffron.SaffronNonNegative | src/saffron.cpp:97 | for a non-negative `gammai`, `0 <= w0 <= alpha` and `0 <= lambda <= 1`, the level is non-negative |
| Saffron.LordRuleNonNegative | src/saffron.cpp:81-95 | for a non-negative `g` and non-negative terms and `0 <= w0 <= a`, the rule is non-negative |
| Saffron.ShrinkNonNegative | src/saffron.cpp:81 | for `lambda <= 1` and `x >= 0`, scaling by `(1 - lambda)` keeps `x` non-negative |
| RSaffron.SaffronFaster | R/saffron.cpp:21-104 | the duplicate kernel produces a SAFFRON run |
| RSaffron.FasterIsRun | R/saffron.cpp:21-104 | the per-step characterisation is a SAFFRON run |
| RSaffron.SaffronRunUnique | R/saffron.cpp:107-178 | two runs over the same inputs are equal |
| RSaffron.RunsAgreeUpTo | R/saffron.cpp:121-170 | two runs agree on every prefix |
| RSaffron.FullAgreesWithFaster | R/saffron.cpp:107-178 | `saffron_rcpp_full` started fresh gives exactly the levels and decisions of `saffron_faster` |
| RSaffron.RunExtend | R/saffron.cpp:121-170 | a run extended by a correct step is a run |
| RSaffron.AddToFirst | R/saffron.cpp:136-138 | the first `n` counts grow by `d` in place, and the others stay unchanged |
| RSaffron.RcppIncrement | R/saffron.cpp:136-141 | the in-place increment updates the older counts and sums their terms, and leaves the rest |
| RSaffron.RcppFinish | R/saffron.cpp:144-151 | the recount sets the last count in place and gives the unclamped level |
| RSaffron.RcppMany | R/saffron.cpp:127-152 | the `K > 1` branch sets all counts and gives the unclamped level |
| RSaffron.RcppOne | R/saffron.cpp:153-164 | the `K == 1` branch sets the first count and gives the unclamped level |
| RSaffron.RStepMany | R/saffron.cpp:127-152 | the `K > 1` branch gives the level with offset `c0` |
| RSaffron.RStepOne | R/saffron.cpp:153-164 | the `K == 1` branch gives the level with offset `c0` |
| RSaffron.RStepNone | R/saffron.cpp:165-169 | the `K == 0` branch gives the level with offset `c0` |
| RSaffron.RcppThreshold | R/saffron.cpp:123-169 | `tau` is the rejection list, the counts are correct, and the level is the SAFFRON level |
| RSaffron.RcppStep | R/saffron.cpp:121-170 | one iteration writes the candidate flag, the running count, `tau`, the counts and the level |
| RSaffron.RcppFullStep | R/saffron.cpp:121-170 | one iteration carries the whole array state from step `i` to `i + 1` |
| RSaffron.RcppSteps | R/saffron.cpp:121-170 | the loop carries the array state to the end |
| RSaffron.SaffronRcppFull | R/saffron.cpp:107-178 | the arrays hold a SAFFRON run with offset `c0`; the running count, the candidate flags, `tau` and the counts are as computed; the rest of `Cjplus` is unchanged |
| SaffronStar.Counted | src/saffronstar.cpp:39-46 | the candidate view has one flag per earlier step |
| SaffronStar.CountFrom | src/saffronstar.cpp:55-68 | the count from `lo` is bounded by the flags from `lo` |
| SaffronStar.AsyncCandsum | src/saffronstar.cpp:46 | the asynchronous candidate count is at most `i` |
| SaffronStar.DepCandsum | src/saffronstar.cpp:133-137 | the dependent candidate count is at most `i` |
| SaffronStar.TermsAt | src/saffronstar.cpp:55-68 | every term reads `gammai[i - stored - Cjplus - 1]`, and every entry after the first is stored as 1 |
| SaffronStar.CountSeen | src/saffronstar.cpp:55-68 | the loop counts the visible candidates from `from` |
| SaffronStar.CjplusSum | src/saffronstar.cpp:55-68 | the loop sums the terms and yields the first count and the first term |
| SaffronStar.CjplusLoop | src/saffronstar.cpp:55-68 | the loop over `r` sums the given terms, and its first count and first read are those of the first rejection |
| SaffronStar.TildeMany | src/saffronstar.cpp:51-74 | the `K > 1` branch gives the unclamped level |
| SaffronStar.TildeOne | src/saffronstar.cpp:75-86 | the `K == 1` branch gives the unclamped level |
| SaffronStar.TildeNone | src/saffronstar.cpp:87-89 | the `K == 0` branch gives the unclamped level |
| SaffronStar.StarThreshold | src/saffronstar.cpp:51-90 | the level is `min(lambda, tilde)` |
| SaffronStar.AsyncStep | src/saffronstar.cpp:37-93 | one iteration writes the candidate flag, has the arrived count and gives the asynchronous level |
| SaffronStar.AsyncFaster | src/saffronstar.cpp:14-99 | `alphai[0] = min(gammai[0] * w0, lambda)`; each later level is the asynchronous SAFFRON level, at most `lambda`; each decision compares against it |
| SaffronStar.CandsumUpTo | src/saffronstar.cpp:133-137 | the loop sums the candidate flags up to the bound |
| SaffronStar.DepStep | src/saffronstar.cpp:125-184 | one iteration gives the dependent level, or fails exactly when `i - 1 - L[i]` is past the end |
| SaffronStar.DepFaster | src/saffronstar.cpp:102-191 | every computed level is the dependent SAFFRON level, at most `lambda`; it stops early only when the candidate bound is past the end |
| SaffronStar.CountFromArrival | src/saffronstar.cpp:55-68 | the asynchronous view counts arrived candidates |
| SaffronStar.CountFromLag | src/saffronstar.cpp:146-159 | the dependent view counts candidates before `i - L[i]` |
| SaffronStar.AsyncCandsumVisible | src/saffronstar.cpp:46 | the asynchronous candidate count is at most the arrived candidates |
| SaffronStar.AsyncCandsumAtMost | src/saffronstar.cpp:46 | the asynchronous candidate count is at most the synchronous one |
| SaffronStar.AsyncCandsumMissesLate | src/saffronstar.cpp:46 | a candidate that has not arrived makes the count strictly smaller |
| SaffronStar.AsyncCandsumOnTime | src/saffronstar.cpp:46 | when everything has arrived, the count equals the synchronous one |
| SaffronStar.DepNoLag | src/saffronstar.cpp:126-137 | with `L[i] <= 0`, every rejection and every candidate is seen |
| SaffronStar.DepPositiveLag | src/saffronstar.cpp:126-181 | with a positive lag, no rejection is seen, and the level is `min(lambda, w0 * gammai[i - candsum])` |
| SaffronStar.DepPositiveNoTerms | src/saffronstar.cpp:126-131 | with a positive lag, there are no terms |
| SaffronStar.NothingArrivedNothingPushed | src/saffronstar.cpp:39-44 | with no arrived rejection, nothing is pushed |
| SaffronStar.AsyncNothingVisible | src/saffronstar.cpp:39-90 | with nothing arrived, the level is `min(lambda, w0 * gammai[i - candsum])` |
| SaffronStar.TermsShape | src/saffronstar.cpp:55-73 | the first term reads its own count, and every later term reads `gammai[i - 2 - Cjplus]` |
| SaffronStar.StarAlphaInRange | src/saffronstar.cpp:90 | for a non-negative `gammai`, `0 <= lambda` and `0 <= w0 <= (1 - lambda) * alpha`, the clamped level lies in `[0, lambda]` |
| SaffronStar.AsyncAlphaInRange | src/saffronstar.cpp:90 | for a non-negative `gammai`, `0 <= lambda` and `0 <= w0 <= (1 - lambda) * alpha`, asynchronous levels lie in `[0, lambda]` |
| SaffronStar.DepAlphaInRange | src/saffronstar.cpp:181 | for a non-negative `gammai`, `0 <= lambda` and `0 <= w0 <= (1 - lambda) * alpha`, dependent levels lie in `[0, lambda]` |
| SaffronStar.BatchCj | src/saffronstar.cpp:294-301 | `Cj` holds one candidate count per finished batch |
| SaffronStar.CountNonzero | src/saffronstar.cpp:250-263 | the count of non-empty batches from `lo` is bounded |
| SaffronStar.BatchTerms | src/saffronstar.cpp:246-271 | there is one term per entry of `r` |
| SaffronStar.BatchTermsAt | src/saffronstar.cpp:246-271 | batch terms exist exactly when their indices are in range, and they read them |
| SaffronStar.BatchCjplus | src/saffronstar.cpp:250-263 | the loop counts the non-empty batches from `from` |
| SaffronStar.BatchCjplusSum | src/saffronstar.cpp:250-263 | the loop sums the batch terms and yields the first term, or reports an index out of range |
| SaffronStar.BatchSumLoop | src/saffronstar.cpp:250-263 | the loop over `r` succeeds exactly when every batch index is in range, and then sums the terms and keeps the first |
| SaffronStar.BatchTildeMany | src/saffronstar.cpp:246-271 | the `K > 1` branch gives the unclamped level, or reports an index out of range |
| SaffronStar.BatchTildeOne | src/saffronstar.cpp:272-287 | the `K == 1` branch gives the unclamped level, or reports an index out of range |
| SaffronStar.BatchTildeNone | src/saffronstar.cpp:288-292 | the `K == 0` branch gives the unclamped level |
| SaffronStar.BatchThreshold | src/saffronstar.cpp:246-293 | the cell level is `min(lambda, tilde)` when defined |
| SaffronStar.BatchCjSum | src/saffronstar.cpp:229 | the sum of `Cj` counts the candidates in all finished batches |
| SaffronStar.CjTotal | src/saffronstar.cpp:229 | the loop sums `Cj` |
| SaffronStar.BatchCount | src/saffronstar.cpp:294-301 | the loop counts the candidates of batch `b` |
| SaffronStar.BatchFirstRow | src/saffronstar.cpp:218-225 | the first batch row, its candidate flags and `Cj[0]` |
| SaffronStar.WriteCand | src/saffronstar.cpp:231-293 | one more candidate flag is written |
| SaffronStar.BatchCell | src/saffronstar.cpp:231-293 | one cell gives its level exactly when it is defined |
| SaffronStar.BatchLaterRow | src/saffronstar.cpp:227-303 | a later row holds the cell levels, or fails exactly at an undefined cell |
| SaffronStar.BatchFaster | src/saffronstar.cpp:194-308 | every computed row matches the batch specification; it stops early only at an undefined cell |
| SaffronStar.CjNonzeroAtMost | src/saffronstar.cpp:250-263 | non-empty batches are at most the candidates, and at most the number of batches |
| SaffronStar.BatchCellInRange | src/saffronstar.cpp:231-293 | when the earlier rejections are at most the earlier batches, a cell is defined |
| SaffronStar.BatchIndexInRange | src/saffronstar.cpp:250-263 | in that case every index read is inside `gammai` |
| SaffronStar.BatchCellOverrun | src/saffronstar.cpp:231-293 | otherwise the cell reads out of range |
| SaffronStar.BatchCellDefined | src/saffronstar.cpp:231-293 | a cell is defined exactly when the earlier rejections are at most the number of earlier batches |
| SaffronStar.BatchCellBounds | src/saffronstar.cpp:231-293 | for a non-negative `gammai`, `0 <= lambda` and `0 <= w0 <= (1 - lambda) * alpha`, a defined cell level lies in `[0, lambda]` |
| Addis.Reads | src/addis.cpp:79-99 | there is one read per index |
| Addis.ReadsSnoc | src/addis.cpp:79-99 | the sum of reads grows by the next read |
| Addis.OutOfGamma | src/addis.cpp:79-99 | an out-of-range index makes every longer read list out of range |
| Addis.SyncIndices | src/addis.cpp:59-100 | there is one gamma index per rejection |
| Addis.Selection | src/addis.cpp:42-43 | `selected` and its cumulative count `S` are computed |
| Addis.KappaStar | src/addis.cpp:64-77 | `kappaistar[j]` is the selection count through `kappai[j]` |
| Addis.SelectedThrough | src/addis.cpp:106-108 | the loop counts selections through `t` |
| Addis.SyncIncrement | src/addis.cpp:79-84 | the increment loop updates the older counts and sums their reads, or reports an index out of range |
| Addis.SyncFinishMany | src/addis.cpp:86-99 | the recount sets the last count, and the formula is read |
| Addis.SyncManyList | src/addis.cpp:59-100 | the `K > 1` branch gives the counts and the rule on the reads |
| Addis.SyncIndicesOfList | src/addis.cpp:94-99 | the computed indices are the specification's indices |
| Addis.CappedIsSync | src/addis.cpp:127 | the level is `min(tau * lambda, tilde)` |
| Addis.SyncManyPrep | src/addis.cpp:59-84 | the first part of the `K > 1` branch |
| Addis.SyncMany | src/addis.cpp:59-100 | the `K > 1` branch gives the ADDIS level exactly when it is defined |
| Addis.SyncManyFinish | src/addis.cpp:86-100 | the second part of the `K > 1` branch |
| Addis.SyncManyClose | src/addis.cpp:94-127 | the clamp: defined exactly when the reads are in range |
| Addis.SyncOne | src/addis.cpp:101-120 | the `K == 1` branch gives the ADDIS level exactly when it is defined |
| Addis.SyncNone | src/addis.cpp:121-124 | the `K == 0` branch gives the ADDIS level exactly when it is defined |
| Addis.SyncStep | src/addis.cpp:52-132 | one iteration keeps the candidates, counts and `kappai`, and gives the level exactly when it is defined |
| Addis.SyncAdvance | src/addis.cpp:52-132 | one iteration keeps the run state: with `ok` the run grows by one step whose level is the ADDIS level and whose decision compares against it; without `ok` nothing changes and the next level is undefined |
| Addis.SyncRule | src/addis.cpp:52-132 | the rule of the run is the synchronous ADDIS level |
| Addis.SyncRunRows | src/addis.cpp:52-132 | a run gives the per-step levels, each at most `tau * lambda` |
| Addis.SyncFaster | src/addis.cpp:24-137 | `alphai[0] = w0 * gammai[0]`; each later level is the ADDIS level, at most `tau * lambda`; each decision compares against it; it stops early only where a gamma read leaves the sequence |
| Addis.CandLevelBelowTau | src/addis.cpp:54-55 | with `0 <= tau` and `lambda <= 1`, the candidate level `tau * lambda` is at most `tau` |
| Addis.SyncIndexCounts | src/addis.cpp:79-99 | given `tau * lambda <= tau`, the index of a rejection counts the selected non-candidates after it, and is within `[0, i - t - 1]` |
| Addis.SyncBaseCounts | src/addis.cpp:94-99 | given `tau * lambda <= tau`, the base index `S[i-1] - candsum` counts the selected non-candidates, and is within `[0, i]` |
| Addis.SyncDefined | src/addis.cpp:52-132 | with `gammai` longer than the history, `0 <= tau` and `lambda <= 1`, the synchronous level is always defined |
| Addis.ReadsNonNegative | src/addis.cpp:79-99 | reads of a non-negative gamma are non-negative |
| Addis.CappedRuleBounds | src/addis.cpp:127 | for a non-negative `g` and non-negative terms, `0 <= w0 <= rate` and a cap `cl >= 0`, the rule clamped at `cl` lies in `[0, cl]` |
| Addis.SyncAlphaBounds | src/addis.cpp:127 | for a non-negative `gammai`, `0 <= w0 <= tau * (1 - lambda) * alpha` and `0 <= tau * lambda`, every defined synchronous level lies in `[0, tau * lambda]` |
| Addis.SeenSelected | src/addis.cpp:191-199 | the asynchronous selection count is at most `n` |
| Addis.AsyncIndices | src/addis.cpp:202-243 | there is one gamma index per visible rejection |
| Addis.VisibleRejections | src/addis.cpp:171-178 | the loop lists exactly the visible rejections |
| Addis.ArrivedCands | src/addis.cpp:180-189 | the loop counts the arrived candidates |
| Addis.SeenSelectedCount | src/addis.cpp:191-199 | the loop computes the asynchronous selection count |
| Addis.AsyncCjplus | src/addis.cpp:219-232 | each count is the number of arrived candidates after its rejection |
| Addis.ReadSum | src/addis.cpp:234-243 | the loop sums the reads, or reports an index out of range |
| Addis.AsyncManyList | src/addis.cpp:202-243 | the `K > 1` branch gives the rule on the reads |
| Addis.CappedIsAsync | src/addis.cpp:268 | the level is `min(tau * lambda, tilde)` |
| Addis.AsyncMany | src/addis.cpp:202-243 | the `K > 1` branch gives the asynchronous level exactly when it is defined |
| Addis.AsyncOne | src/addis.cpp:245-261 | the `K == 1` branch gives the asynchronous level exactly when it is defined |
| Addis.AsyncNone | src/addis.cpp:262-266 | the `K == 0` branch gives the asynchronous level exactly when it is defined |
| Addis.AsyncCounts | src/addis.cpp:171-199 | one step computes the visible list and the counts |
| Addis.AsyncStep | src/addis.cpp:162-272 | one iteration keeps the candidate flags and gives the level exactly when it is defined |
| Addis.AsyncAdvance | src/addis.cpp:169-273 | one asynchronous iteration grows the run by one step at the asynchronous ADDIS level with its decision, keeping the candidate flags written up to the new step; without `ok` nothing changes and the next level is undefined |
| Addis.AsyncRule | src/addis.cpp:162-272 | the rule of the run is the asynchronous ADDIS level |
| Addis.AsyncRunRows | src/addis.cpp:162-272 | a run gives the per-step levels, each at most `tau * lambda` |
| Addis.AsyncFaster | src/addis.cpp:140-278 | `alphai[0] = w0 * gammai[0]`; each later level is the asynchronous ADDIS level, at most `tau * lambda`; each decision compares against it; it stops early only where a read leaves `gammai` |
| Addis.ArrivedAtMost | src/addis.cpp:180-189 | arrived candidates are at most all candidates |
| Addis.SeenAtLeast | src/addis.cpp:191-199 | the asynchronous selection count is at least the selections before `n` |
| Addis.AsyncCountsOrdered | src/addis.cpp:180-199 | given `tau * lambda <= tau`, arrived candidates are at most the selections seen, and those are at most `i` |
| Addis.AsyncIndexBounds | src/addis.cpp:234-243 | given `tau * lambda <= tau`, an asynchronous index lies in `[0, i]` |
| Addis.AsyncDefined | src/addis.cpp:162-272 | with `gammai` longer than the history, `0 <= tau` and `lambda <= 1`, the asynchronous level is always defined |
| Addis.AsyncAlphaBounds | src/addis.cpp:268 | for a non-negative `gammai`, `0 <= w0 <= tau * (1 - lambda) * alpha` and `0 <= tau * lambda`, every defined asynchronous level lies in `[0, tau * lambda]` |
| Addis.SeenAllArrived | src/addis.cpp:191-199 | when everything has arrived, the selection count is the synchronous one |
| Addis.ArrivedAll | src/addis.cpp:180-189 | when everything has arrived, the arrived count is the plain count |
| Addis.VisibleAll | src/addis.cpp:171-178 | when everything has arrived, every rejection is visible |
| Addis.AsyncMatchesSync | src/addis.cpp:140-278 | when every test finishes by the next step, asynchronous ADDIS equals synchronous ADDIS |
| AlphaInvesting.RejectedGap | src/alphainvesting.cpp:50-56 | rejection `j` leaves room for the rejections after it |
| AlphaInvesting.InvestIndex | src/alphainvesting.cpp:50-69 | the gamma index of each term lies inside the history |
| AlphaInvesting.InvestTerms | src/alphainvesting.cpp:45-79 | there is one term per rejection |
| AlphaInvesting.InvestRule | src/alphainvesting.cpp:39-90 | the rule of the run is the alpha-investing level |
| AlphaInvesting.InvestFirst | src/alphainvesting.cpp:27-28 | the first level is `t / (1 + t)` with `t = gammai[0] * w0`, undefined when `1 + t == 0` |
| AlphaInvesting.LevelOfWealth | src/alphainvesting.cpp:84 | for `t >= 0`, `t / (1 + t)` lies in `[0, 1)` |
| AlphaInvesting.InvestAlphaBounds | src/alphainvesting.cpp:84 | with `gammai` longer than the history and non-negative, and `0 <= w0 <= alpha`, every level is defined and lies in `[0, 1)` |
| AlphaInvesting.NothingAfterLast | src/alphainvesting.cpp:58-64 | after the last rejection, nothing is rejected |
| AlphaInvesting.RecountAfterLast | src/alphainvesting.cpp:58-64 | the recount after the last rejection is 0 |
| AlphaInvesting.InvestIncrement | src/alphainvesting.cpp:50-56 | the increment loop sets the older counts to `K - 1 - j` and sums their terms |
| AlphaInvesting.TermsThroughTau | src/alphainvesting.cpp:50-69 | term `j` reads `gammai[i - tau_j - (K - 1 - j) - 1]` |
| AlphaInvesting.InvestUpdateTau | src/alphainvesting.cpp:85-88 | the update yields the rejection list |
| AlphaInvesting.IncrementCounts | src/alphainvesting.cpp:50-56 | after the increment, count `j` is `K - 1 - j` |
| AlphaInvesting.InvestMany | src/alphainvesting.cpp:45-70 | the `K > 1` branch gives the wealth and keeps the counts |
| AlphaInvesting.InvestManyHead | src/alphainvesting.cpp:47-56 | the first part of the `K > 1` branch |
| AlphaInvesting.InvestManyTail | src/alphainvesting.cpp:58-69 | the second part: the recount and the formula |
| AlphaInvesting.InvestWealthHigh | src/alphainvesting.cpp:68-69 | the many-rejections wealth is the LORD-shaped combination |
| AlphaInvesting.InvestWealthLow | src/alphainvesting.cpp:71-79 | the one-rejection wealth |
| AlphaInvesting.InvestOne | src/alphainvesting.cpp:71-79 | the `K == 1` branch gives the wealth and keeps the counts |
| AlphaInvesting.InvestWealthStep | src/alphainvesting.cpp:45-82 | the three branches give the wealth |
| AlphaInvesting.InvestCandUpdate | src/alphainvesting.cpp:41-42 | the candidate flags and their count equal the rejections |
| AlphaInvesting.InvestWealthNone | src/alphainvesting.cpp:80-82 | with no rejection, the wealth is `w0 * gammai[i]` |
| AlphaInvesting.InvestStep | src/alphainvesting.cpp:39-88 | one iteration keeps the state, and gives the level exactly when `1 + t != 0` |
| AlphaInvesting.InvestAdvance | src/alphainvesting.cpp:39-90 | the loop body extends the run, or stops where the level is undefined |
| AlphaInvesting.AlphaInvestingFaster | src/alphainvesting.cpp:12-95 | each level is the alpha-investing level of the earlier decisions; each decision compares against it; it stops early only where the level is undefined |
| AlphaInvesting.InvestRows | src/alphainvesting.cpp:39-90 | a run gives the per-step levels |
| BatchPrds.WhichExactly | src/batchprds.cpp:16-30 | `Which` lists, in increasing order, exactly the positions whose value equals `batch` |
| BatchPrds.WhichSnoc | src/batchprds.cpp:16-30 | `Which` of a longer prefix adds the new position exactly when it matches |
| BatchPrds.WhichRcpp | src/batchprds.cpp:16-30 | the result lists exactly the matching positions, in increasing order |
| BatchPrds.Pick | src/batchprds.cpp:12 | picking by indices reads those positions |
| BatchPrds.SubsetRcpp | src/batchprds.cpp:6-13 | the result holds the p-values at the matching positions, in order, one per match |
| BatchPrds.Swapped | src/batchprds.cpp:47 | a swap exchanges two entries and keeps the rest |
| BatchPrds.Exchange | src/batchprds.cpp:47 | the in-place swap is `Swapped` and keeps the multiset |
| BatchPrds.InsertReal | src/batchprds.cpp:47 | one insertion step sorts one more prefix and keeps the multiset |
| BatchPrds.SortReals | src/batchprds.cpp:47 | the array ends sorted, a permutation of its start |
| BatchPrds.StlSort | src/batchprds.cpp:44-48 | the result is sorted and a permutation of the input |
| BatchPrds.SortedUnique | src/batchprds.cpp:44-48 | two sorted permutations of one multiset are equal, so the result of `stl_sort` is determined |
| BatchPrds.Range | src/batchprds.cpp:36 | `seq_along(x) - 1` is `0, 1, ..., n - 1` |
| BatchPrds.PickExchange | src/batchprds.cpp:38 | swapping two indices keeps the multiset of picked values |
| BatchPrds.InsertIndex | src/batchprds.cpp:38 | one insertion step sorts one more prefix of indices by `y`, keeps the multiset of indices and leaves the rest of the vector alone |
| BatchPrds.SortIndices | src/batchprds.cpp:38 | the indices end sorted by `y` and are a rearrangement of the indices they started as, so the picked values keep their multiset |
| BatchPrds.RcppSort | src/batchprds.cpp:33-41 | the result is `x` read through a rearrangement of `0, ..., n - 1` sorted by `y`, and a permutation of `x` |
| BatchPrds.RangeMembers | src/batchprds.cpp:36-38 | a rearrangement of `seq_along(x) - 1` contains every index of `x` |
| BatchPrds.RcppSortExample | src/batchprds.cpp:33-41 | with distinct keys the order is determined: for `x = [1, 1, 2]` and `y = [5, 0, 3]` the result is `[1, 2, 1]` |
| BatchPrds.OrderBySelf | src/batchprds.cpp:33-41 | ordering `x` by itself gives its sorted permutation |

## Left out

- Default gamma sequences: when `gammai` is empty, the kernels build the default `0.4374901658 / (i + 1)^1.6` themselves (src/addis.cpp:32-36, src/addis.cpp:150-155, src/saffron.cpp:30-34, R/saffron.cpp:29-33, src/alphainvesting.cpp:17-21). That branch is not modelled, because a real power with exponent 1.6 has no exact counterpart in the model. For a non-empty `pval`, the requires `|gammai| >= N` excludes an empty `gammai` (`|gammai| >= 1` for `Addis.SyncFaster` and `Addis.AsyncFaster`, which report a short `gammai` with `ok == false`), so `gammai` is always the caller's sequence.
- Floating point: doubles are modelled as real numbers. Rounding and NaN are not modelled.
- Rcpp glue is not modelled: `DataFrame` construction, `clone`, the `Progress` bar, `Rcout` and `printVec` output. Results are returned as arrays or sequences.
- `prds_faster` (src/batchprds.cpp:51-88) is not modelled. It is outside the helpers this model covers.
- Lord versions: the `version` argument of `lord_faster` is replaced by three methods, `Lord1Faster`, `Lord2Faster` and `Lord34Faster` (with `dep` false for version 3 and true for version 4). Other values of `version` are not modelled.
- The `alpha` argument of the LOND kernels does not affect their results. The LONDstar kernels take no `alpha`.
- Batch matrices are modelled as sequences of rows. Row `b` has length `batch[b]`. The padding cells of the source matrix are never written, so they are false and add nothing to any count.
- `std::sort` is modelled as an insertion sort, and only its result is specified. For `Rcpp_sort`, the order among equal keys is left open, since `std::sort` is not stable.
- BatchPrds.RcppSort: requires `|y| >= |x|`. The source reads `y` at every index of `x`.
- Length requirements: sizes the R callers guarantee become requires: `|gammai| >= N`, and `E` and `L` at least as long as `pval`. The exceptions are `Addis.SyncFaster` and `Addis.AsyncFaster`: they require only `|gammai| >= 1`, and a short `gammai` ends the run with `ok == false`.
- Batch layout: the batch kernels require `batchsum` to be exactly the cumulative sum of `batch` (`Common.BatchLayout`), with every batch inside `pval`. The R callers compute `batchsum` this way; those R wrappers are not part of this model.
- AddisSpending.AddisSpendingFaster: requires `lambda <= tau`. With `lambda > tau`, a p-value in `(tau, lambda]` raises `candsum` but not `selectsum`, so `selectsum - candsum` goes negative and src/addis_spending.cpp:25 reads `gammai` at a negative index (`SpendCountersGoNegative`).
- AddisSpending.AddisSpendingDepFaster: requires `lambda <= tau` and `L[k] >= 0`. It also requires `|gammai| > |pval|`, because the dependent index can reach `i + 1` (`DepIndexReachesPastLastStep`).
- Out-of-range reads: a read that leaves `gammai` or `cand` depending on the data ends the run with `ok == false`. The contract says exactly when that happens, instead of modelling undefined behaviour. This covers `Lord.Lord2Faster`, `LordStar.BatchFaster`, `SaffronStar.BatchFaster`, `SaffronStar.DepFaster`, `Addis.SyncFaster` and `Addis.AsyncFaster`.
- AlphaInvesting.AlphaInvestingFaster: stops with `ok == false` where `1 + t == 0`. The source divides by zero there.
- RSaffron.SaffronRcppFull: requires the following of the caller:
  - arrays of length exactly `N`;
  - distinct `cand` and `Cjplus` arrays, because the method writes both in place;
  - `R` and `cand` zero from index 1, because `K = sum(R)` (R/saffron.cpp:123) runs over the whole array and the recounts of R/saffron.cpp:144 and R/saffron.cpp:158 read `cand`, so stale entries left by the caller would change the counts;
  - a base index `i - c0 - candsum` inside `gammai`.
- RSaffron.SaffronRcppFull: its contract is stated with `old`, because it states what the source changes in place.
- The SaffronStar batch `Cj` vector is kept as the sequence of its written entries. The unwritten tail of the source vector is zero and is never read.
- Integer doubles: the gamma index values that the source keeps in doubles are integers in the model. They are `S` and `taumax` in src/lord.cpp, `S` in src/addis.cpp:43, and `kappaistar` in src/addis.cpp:65 and src/addis.cpp:205. Each holds a count of booleans, so its value is a whole number.
- Addis.AsyncFaster: the asynchronous `S` vector is kept only as the current value, because only that entry is read.
- Addis.AsyncFaster: the `Cjplus` entries are recomputed on every step.
- RSaffron.SaffronFaster delegates to `Saffron.SaffronFaster`, because `saffron_faster` in R/saffron.cpp is the same computation as in src/saffron.cpp.

## Findings

| source | as written | input that shows it | evidently intended | confidence | as-written member | corrected member |
|---|---|---|---|---|---|---|
| src/lord.cpp:134-140 | in the `K == 1` branch of version 2, `kappaistar` counts the selected p-values strictly before the rejection, and the term is read at `S[i-1] - kappaistar - 1` | `N >= 2` and `taudiscard < pval[0] <= gammai[0] * w0`: `pval[0]` is rejected but not selected, and step 1 reads `gammai[-1]` | the `K > 1` index of src/lord.cpp:110-127, with `kappaistar` counted inclusively and no `- 1`; the two agree whenever the rejection is selected | not executed | `Lord.Lord2FirstUnselected` and `Lord.Lord2UnselectedIndex`, on `Lord.Lord2Written` | `Lord.Lord2WrittenIsCorrected` and `Lord.Lord2TermsCorrected`, on `Lord.Lord2Alpha` |
