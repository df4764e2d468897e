# DOASD covariance shrinkage, modelled in Dafny

The notebook `doasd_estimation.py` compares covariance estimators on
small samples. The only algorithm it writes itself is the DOASD blend.
DOASD shrinks an empirical covariance matrix `E` towards its own
diagonal in two stages:

- Stage one uses the diagonal intensity `d`: `D = E*(1-d) + diag(diag(E))*d`.
- Stage two uses the off-diagonal intensity `o`: `S = D*(1-o) + diag(diag(D))*o`.

The notebook then scores the result with the flattened mean squared error
against a reference matrix. It does so once with fixed intensities, through
the `DOASD` class, and once with the adaptive intensities
`d = 1 - (p+1)/n` and `o = 1 - trace(E)/sum(E)`.

The model works over exact reals. A matrix is a `seq<seq<real>>`. It has
four modules:

- `Matrices` (`matrices.dfy`): the numpy operations used. These are scaling,
  addition, `np.diag` in both directions, `ravel`, `np.sum` and the trace.
  The module also proves that the total sum is the trace plus the
  off-diagonal sum.
- `Metrics` (`metrics.dfy`): `mean_squared_error` on two flattened vectors,
  with its error cases (lengths differ, input empty) as a `Result`.
- `Doasd` (`doasd.dfy`): the blend as pure functions, its algebra as lemmas,
  and the `DOASD` object as a class. `Fit` writes the `covariance` field.
- `Evaluation` (`evaluation.dfy`): `compute_rmse` before the square root,
  for the `DOASD` object and for the adaptive path, plus the adaptive rule
  for the intensities.

The code does not clamp `d` or `o` (`doasd_estimation.py:443-444`), and
neither does the model. `AdaptiveDiagonalSign` and
`AdaptiveSweepAlwaysAmplifies` show what follows: with 40 features and 6 to
30 samples, `d` is negative, so stage one scales every off-diagonal entry
by more than one.

The code divides by `n_samples` and by `np.sum(E)` without a guard. The
adaptive members therefore require `nSamples > 0` and `Sum(m) != 0`. In
`compute_rmse` (`:443`), `n_features` is the global 40, which is the column
count of the data and so the size of `E`. The model uses `|m|` for it.

## Model

| member | source | states |
|---|---|---|
| Doasd.Blend | doasd_estimation.py:392 | one blend stage keeps every diagonal entry for any real intensity `s` and multiplies every off-diagonal entry by `1 - s`; the result is square of the same size |
| Doasd.DoasdShrink | doasd_estimation.py:392-393 | both stages together keep the diagonal of `E` and multiply every off-diagonal entry by `(1-d)(1-o)` |
| Doasd.TwoStagesAreOneBlend | doasd_estimation.py:392-393 | the two stages equal a single blend with intensity `1-(1-d)(1-o)` |
| Doasd.NoShrinkageKeepsInput | doasd_estimation.py:392-393 | with `d = o = 0` the estimate is `E` itself |
| Doasd.FullShrinkageIsDiagonalTarget | doasd_estimation.py:392-393 | with `d = 1` or `o = 1` the estimate is `diag(diag(E))`, so every off-diagonal entry is zero |
| Doasd.DiagonalResultIff | doasd_estimation.py:392-393 | the estimate is diagonal if and only if `d = 1`, `o = 1` or `E` is already diagonal |
| Doasd.ShrinkPreservesSymmetry | doasd_estimation.py:392-393 | a symmetric `E` gives a symmetric estimate |
| Doasd.ShrinkNeverAmplifies | doasd_estimation.py:392-393 | for `d` and `o` in `[0, 1]` every entry of the estimate lies between zero and the matching entry of `E` |
| Doasd.ShrinkAmplifiesBeyondOne | doasd_estimation.py:392-393 | when `(1-d)(1-o) >= 1` every entry of the estimate is at least as far from zero as the matching entry of `E`, on the same side |
| Doasd.WorkedExample | doasd_estimation.py:392-393 | intensities 0.5 and 0.1 send `[[4,2],[2,9]]` to `[[4,1],[1,9]]` after stage one and to `[[4,0.9],[0.9,9]]` after stage two |
| Doasd.Estimator.constructor | doasd_estimation.py:373-376 | stores the two intensities, with defaults 0.5 and 0.1; no covariance is fitted yet |
| Doasd.Estimator.Fit | doasd_estimation.py:383-396 | sets `covariance` to the two-stage blend of the empirical covariance with the stored intensities; nothing else changes |
| Metrics.MeanSquaredError | doasd_estimation.py:231 | success exactly when the lengths agree and are non-zero; a length mismatch is reported as such; every value is non-negative |
| Metrics.FlattenedError | doasd_estimation.py:231 | two square matrices of the same non-zero size always give a value, and it is non-negative |
| Metrics.MeanSquaredErrorSymmetric | doasd_estimation.py:231 | swapping the two vectors gives the same result, error cases included |
| Metrics.MeanSquaredErrorZero | doasd_estimation.py:231 | on non-empty vectors of one length the error is zero if and only if the vectors are equal |
| Metrics.FlattenedErrorProperties | doasd_estimation.py:451 | the flattened error is symmetric, and a non-empty matrix has error zero against itself |
| Metrics.SquaredDiffsAppend | doasd_estimation.py:231 | the sum of squared differences of two concatenations is the sum over the two parts |
| Matrices.RavelAt | doasd_estimation.py:231 | `ravel` of a `rows`-by-`cols` matrix has `rows*cols` entries and puts entry `(i, j)` at position `i*cols + j` |
| Matrices.SumSeqNonNegative | doasd_estimation.py:231 | a sum of non-negative terms is non-negative, and zero exactly when every term is zero |
| Matrices.SumIsTracePlusOffDiagonal | doasd_estimation.py:444 | `np.sum(E)` equals the trace plus the sum of the off-diagonal entries |
| Evaluation.ShrinkErrorIsOffDiagonal | doasd_estimation.py:438-451 | the error of a blend against its own input is `(1/p²)·Σ_{i≠j} (E[i][j]·c)²` with `c = 1-(1-d)(1-o)`; diagonal entries contribute nothing |
| Evaluation.RowResidual | doasd_estimation.py:392-393 | row by row, the squared differences between `E` and the blend equal the squared off-diagonal entries of `E*c` |
| Evaluation.ComputeSquaredError | doasd_estimation.py:614-618 | fits the estimator on the empirical covariance and scores its `covariance` against that same matrix; an empty matrix is refused and otherwise the value is the off-diagonal residual |
| Evaluation.AdaptiveDiagonalShrinkage | doasd_estimation.py:443 | `d` is below one and `1 - d = (p+1)/n`, with no clamping |
| Evaluation.AdaptiveDiagonalSign | doasd_estimation.py:443 | `d <= 0` if and only if `n <= p+1`, and then `1 - d >= 1`; with more samples `d` is strictly between 0 and 1 |
| Evaluation.AdaptiveSweepAlwaysAmplifies | doasd_estimation.py:426-427 | for 40 features and every sample size from 6 to 30, `d` is negative |
| Evaluation.AdaptiveStageOneAmplifies | doasd_estimation.py:443-447 | with at most `p+1` samples, stage one of the adaptive blend moves every entry of `E` away from zero or leaves it alone |
| Evaluation.AdaptiveOffDiagonalShrinkage | doasd_estimation.py:444 | `o = 1 - trace(E)/sum(E)`, with no clamping, is the share of `np.sum(E)` that lies off the diagonal |
| Evaluation.AdaptiveOffDiagonalOfDiagonal | doasd_estimation.py:444 | a diagonal `E` gets `o = 0` |
| Evaluation.AdaptiveShrink | doasd_estimation.py:447-448 | the adaptive blend keeps the diagonal and multiplies every off-diagonal entry by `(1-d)(1-o)` for the adaptive `d` and `o` |
| Evaluation.AdaptiveRetention | doasd_estimation.py:443-448 | that factor is `((p+1)/n)·(trace(E)/sum(E))` |
| Evaluation.AdaptiveSquaredError | doasd_estimation.py:437-452 | scoring the adaptive blend against the same `np.cov(X)` gives a value, and that value is the off-diagonal residual with the combined adaptive intensity |

## Left out

- The scikit-learn estimators and helpers (`LedoitWolf`, `OAS`, `ShrunkCovariance`, `GridSearchCV`, `log_likelihood`): library code that is not part of this model.
- `np.cov`: the empirical covariance `E` is an input. Both `compute_rmse` functions compute the reference and the estimator's input from the same data, so both roles receive the same matrix. The model assumes a two-dimensional `p`-by-`p` `E`: for a single feature `np.cov` returns a 0-d array and the code fails at `emp_cov.shape[0]` (`:385`) and at `np.diag` (`:444`); that failure is not modelled, and a 1-by-1 `E` gets a result.
- The square root of the RMSE: the model stops at the mean squared error. The square root is monotone and is zero only at zero.
- Floating-point rounding: all arithmetic is over exact reals.
- Random data generation, plotting, printing and the sample-size loops: harness code. The constants of the second sweep, 40 features and 6 to 30 samples, appear in `AdaptiveSweepAlwaysAmplifies`.
- The `compute_shrinkage_rmse` sweep: it passes only one intensity to `ShrunkCovariance` and uses no DOASD code.
- Clamping of the adaptive intensities and errors on bad input: the code has neither, so neither is modelled.
- `Doasd.Estimator.Fit`: takes the empirical covariance instead of the data matrix `X`, because `np.cov` is not modelled. It does not return `self`.
- The `ShrunkCovariance` base class: the model keeps only `DOASD`'s two intensities and the `covariance_` attribute.
- The copies of the `DOASD` class further down the notebook are textually identical in the blend and are modelled once.
- `Evaluation.ComputeSquaredError`: modelled for a `DOASD` estimator only, since the other estimators are library code.
