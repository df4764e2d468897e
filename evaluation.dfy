/** How the notebook scores the DOASD estimate: against the very empirical
    covariance it was fitted on, with the flattened mean squared error, once
    for fixed intensities and once for the adaptive intensities
    `d = 1 - (p + 1) / n` and `o = 1 - trace(E) / sum(E)`. */
module Evaluation {
  import opened Matrices
  import opened Metrics
  import opened Doasd

  // ----- the error of a blend against its own input -----

  /** Row `i` of the squared off-diagonal entries of `m * c`, with a zero in
      the diagonal position. */
  function OffDiagonalSquares(m: Matrix, c: real, i: nat): (r: seq<real>)
    requires IsSquare(m) && i < |m|
    ensures |r| == |m|
  {
    seq(|m|, j requires 0 <= j < |m| => if j == i then 0.0 else (m[i][j] * c) * (m[i][j] * c))
  }

  /** The sum of `(m[i][j] * c)²` over the first `k` rows and all `j != i`. */
  function OffDiagonalSquaredSumRows(m: Matrix, c: real, k: nat): real
    requires IsSquare(m) && k <= |m|
  {
    if k == 0 then 0.0
    else OffDiagonalSquaredSumRows(m, c, k - 1) + SumSeq(OffDiagonalSquares(m, c, k - 1))
  }

  /** `Σ_{i != j} (m[i][j] * c)²`. */
  function OffDiagonalSquaredSum(m: Matrix, c: real): real
    requires IsSquare(m)
  {
    OffDiagonalSquaredSumRows(m, c, |m|)
  }

  lemma EntryResidual(x: real, d: real, o: real)
    ensures x - x * ((1.0 - d) * (1.0 - o)) == x * CombinedIntensity(d, o)
  {
  }

  /** Row by row, the squared residual of the blend is the squared
      off-diagonal part of `m * c`. */
  lemma RowResidual(m: Matrix, d: real, o: real, i: nat)
    requires IsSquare(m) && i < |m|
    ensures SquaredDiffs(m[i], DoasdShrink(m, d, o)[i]) == OffDiagonalSquares(m, CombinedIntensity(d, o), i)
  {
    var s := DoasdShrink(m, d, o);
    var c := CombinedIntensity(d, o);
    var lhs, rhs := SquaredDiffs(m[i], s[i]), OffDiagonalSquares(m, c, i);
    forall j | 0 <= j < |m| ensures lhs[j] == rhs[j] {
      if j == i {
        assert s[i][j] == m[i][j];
      } else {
        assert s[i][j] == m[i][j] * ((1.0 - d) * (1.0 - o));
        EntryResidual(m[i][j], d, o);
        assert m[i][j] - s[i][j] == m[i][j] * c;
      }
    }
  }

  lemma {:induction false} PrefixResidual(m: Matrix, d: real, o: real, k: nat)
    requires IsSquare(m) && k <= |m|
    ensures |Ravel(m[..k])| == |Ravel(DoasdShrink(m, d, o)[..k])|
    ensures SumSeq(SquaredDiffs(Ravel(m[..k]), Ravel(DoasdShrink(m, d, o)[..k])))
         == OffDiagonalSquaredSumRows(m, CombinedIntensity(d, o), k)
  {
    var s := DoasdShrink(m, d, o);
    if k > 0 {
      PrefixResidual(m, d, o, k - 1);
      RavelPrefix(m, k);
      RavelPrefix(s, k);
      SquaredDiffsAppend(Ravel(m[..k - 1]), m[k - 1], Ravel(s[..k - 1]), s[k - 1]);
      RowResidual(m, d, o, k - 1);
    }
  }

  /** The number of entries of a `p`-by-`p` matrix, `p * p`, the divisor of
      the flattened error. The ensures only spares callers the nonlinear
      step that shows the divisor is non-zero. */
  function EntryCount(p: nat): (c: nat)
    ensures p > 0 ==> c >= p
  {
    p * p
  }

  /** Scoring a blend against its own input sees only the off-diagonal
      entries: the flattened error is `(1/p²) Σ_{i != j} (m[i][j] * c)²` with
      the combined intensity `c = 1 - (1 - d)(1 - o)`. */
  lemma ShrinkErrorIsOffDiagonal(m: Matrix, d: real, o: real)
    requires IsSquare(m) && |m| > 0
    ensures FlattenedError(m, DoasdShrink(m, d, o))
         == Ok(OffDiagonalSquaredSum(m, CombinedIntensity(d, o)) / (EntryCount(|m|) as real))
  {
    var s := DoasdShrink(m, d, o);
    var p := |m|;
    PrefixResidual(m, d, o, p);
    assert m[..p] == m && s[..p] == s;
    RavelLength(m, p, p);
  }

  /** `compute_rmse(estimator, X_train)` for a DOASD estimator, before the
      square root: fit on the empirical covariance, then score the fitted
      `covariance_` against that same matrix. */
  method ComputeSquaredError(estimator: Estimator, empCov: Matrix) returns (r: Result<real>)
    requires IsSquare(empCov)
    modifies estimator`covariance
    ensures estimator.covariance == Some(DoasdShrink(empCov, estimator.diagonalShrinkage, estimator.offDiagonalShrinkage))
    ensures r == FlattenedError(empCov, estimator.covariance.value)
    ensures |empCov| == 0 ==> r == Err(EmptyInput)
    ensures |empCov| > 0 ==> r == Ok(OffDiagonalSquaredSum(empCov,
      CombinedIntensity(estimator.diagonalShrinkage, estimator.offDiagonalShrinkage)) / (EntryCount(|empCov|) as real))
  {
    var trueCov := empCov;
    estimator.Fit(empCov);
    var estimatedCov := estimator.covariance.value;
    r := FlattenedError(trueCov, estimatedCov);
    if |empCov| > 0 {
      ShrinkErrorIsOffDiagonal(empCov, estimator.diagonalShrinkage, estimator.offDiagonalShrinkage);
    }
  }

  // ----- the adaptive intensities -----

  /** `1 - (n_features + 1) / n_samples`, with no clamping. */
  function AdaptiveDiagonalShrinkage(nFeatures: nat, nSamples: nat): (d: real)
    requires nSamples > 0
    ensures d < 1.0
    ensures 1.0 - d == (nFeatures + 1) as real / nSamples as real
  {
    1.0 - (nFeatures + 1) as real / nSamples as real
  }

  lemma QuotientAtMostOne(a: real, b: real)
    requires a > 0.0 && b > 0.0
    ensures a / b <= 1.0 <==> a <= b
  {
    if a / b <= 1.0 {
      assert a == (a / b) * b;
      assert (a / b) * b <= b;
    } else {
      assert a == (a / b) * b;
      assert (a / b) * b > b;
    }
  }

  /** The diagonal intensity is at most zero exactly when there are at most
      `p + 1` samples, and then it scales the off-diagonals of stage one by
      `1 - d >= 1` instead of shrinking them. */
  lemma AdaptiveDiagonalSign(nFeatures: nat, nSamples: nat)
    requires nSamples > 0
    ensures AdaptiveDiagonalShrinkage(nFeatures, nSamples) <= 0.0 <==> nSamples <= nFeatures + 1
    ensures nSamples <= nFeatures + 1 ==> 1.0 - AdaptiveDiagonalShrinkage(nFeatures, nSamples) >= 1.0
    ensures nSamples > nFeatures + 1 ==> 0.0 < AdaptiveDiagonalShrinkage(nFeatures, nSamples) < 1.0
  {
    var q := (nFeatures + 1) as real / nSamples as real;
    QuotientAtMostOne((nFeatures + 1) as real, nSamples as real);
    if nSamples <= nFeatures + 1 {
      assert q >= 1.0 by {
        QuotientAtMostOne(nSamples as real, (nFeatures + 1) as real);
        QuotientFlip((nFeatures + 1) as real, nSamples as real);
      }
    }
  }

  lemma QuotientFlip(a: real, b: real)
    requires a > 0.0 && b > 0.0 && b <= a
    ensures a / b >= 1.0
  {
    assert a == (a / b) * b;
  }

  /** The sample sizes of the adaptive sweep, 6 to 30 with 40 features,
      all give a negative diagonal intensity. */
  lemma AdaptiveSweepAlwaysAmplifies(nSamples: nat)
    requires 6 <= nSamples <= 30
    ensures AdaptiveDiagonalShrinkage(40, nSamples) < 0.0
  {
    QuotientAtMostOne(41.0, nSamples as real);
  }

  /** With at most `p + 1` samples stage one of the adaptive blend moves
      every off-diagonal entry away from zero, since it scales it by
      `1 - d >= 1`. */
  lemma AdaptiveStageOneAmplifies(m: Matrix, nSamples: nat)
    requires IsSquare(m) && 0 < nSamples <= |m| + 1
    ensures forall i, j :: 0 <= i < |m| && 0 <= j < |m| && m[i][j] >= 0.0 ==>
      Blend(m, AdaptiveDiagonalShrinkage(|m|, nSamples))[i][j] >= m[i][j]
    ensures forall i, j :: 0 <= i < |m| && 0 <= j < |m| && m[i][j] <= 0.0 ==>
      Blend(m, AdaptiveDiagonalShrinkage(|m|, nSamples))[i][j] <= m[i][j]
  {
    var d := AdaptiveDiagonalShrinkage(|m|, nSamples);
    var r := Blend(m, d);
    AdaptiveDiagonalSign(|m|, nSamples);
    forall i, j | 0 <= i < |m| && 0 <= j < |m| && i != j
      ensures m[i][j] >= 0.0 ==> r[i][j] >= m[i][j]
      ensures m[i][j] <= 0.0 ==> r[i][j] <= m[i][j]
    {
      AmplifiedEntry(m[i][j], 1.0 - d, r[i][j]);
    }
  }

  /** `1 - np.sum(np.diag(E)) / np.sum(E)`, with no clamping: the share of
      the total mass of `m` that lies off the diagonal. */
  function AdaptiveOffDiagonalShrinkage(m: Matrix): (o: real)
    requires IsSquare(m) && Sum(m) != 0.0
    ensures o == OffDiagonalSum(m) / Sum(m)
  {
    SumIsTracePlusOffDiagonal(m);
    ShareOfRest(Trace(m), Sum(m));
    1.0 - Trace(m) / Sum(m)
  }

  lemma ShareOfRest(t: real, s: real)
    requires s != 0.0
    ensures 1.0 - t / s == (s - t) / s
  {
    assert (s - t) / s == s / s - t / s;
  }

  /** A matrix with no off-diagonal mass gets no off-diagonal shrinkage. */
  lemma AdaptiveOffDiagonalOfDiagonal(m: Matrix)
    requires IsSquare(m) && Sum(m) != 0.0 && IsDiagonal(m)
    ensures AdaptiveOffDiagonalShrinkage(m) == 0.0
  {
    OffDiagonalSumOfDiagonal(m, |m|);
  }

  lemma {:induction false} OffDiagonalSumOfDiagonal(m: Matrix, k: nat)
    requires IsSquare(m) && IsDiagonal(m) && k <= |m|
    ensures OffDiagonalSumRows(m, k) == 0.0
  {
    if k > 0 {
      OffDiagonalSumOfDiagonal(m, k - 1);
      var row := m[k - 1][(k - 1) := 0.0];
      assert forall j :: 0 <= j < |row| ==> row[j] == 0.0;
      SumSeqNonNegative(row);
    }
  }

  /** The adaptive path of the notebook: the two-stage blend with the
      adaptive intensities. It keeps the diagonal and multiplies every
      off-diagonal entry by `(1 - d)(1 - o)` for the adaptive `d` and `o`. */
  function AdaptiveShrink(m: Matrix, nSamples: nat): (r: Matrix)
    requires IsSquare(m) && nSamples > 0 && Sum(m) != 0.0
    ensures IsSquare(r) && |r| == |m|
    ensures forall i :: 0 <= i < |m| ==> r[i][i] == m[i][i]
    ensures forall i, j :: 0 <= i < |m| && 0 <= j < |m| && i != j ==>
      r[i][j] == m[i][j] * ((1.0 - AdaptiveDiagonalShrinkage(|m|, nSamples)) * (1.0 - AdaptiveOffDiagonalShrinkage(m)))
  {
    DoasdShrink(m, AdaptiveDiagonalShrinkage(|m|, nSamples), AdaptiveOffDiagonalShrinkage(m))
  }

  /** The factor the adaptive blend keeps of every off-diagonal entry is
      `((p + 1) / n) * (trace / sum)`. */
  lemma AdaptiveRetention(m: Matrix, nSamples: nat)
    requires IsSquare(m) && nSamples > 0 && Sum(m) != 0.0
    ensures (1.0 - AdaptiveDiagonalShrinkage(|m|, nSamples)) * (1.0 - AdaptiveOffDiagonalShrinkage(m))
         == ((|m| + 1) as real / nSamples as real) * (Trace(m) / Sum(m))
  {
  }

  /** `compute_rmse(X_train)` of the adaptive path, before the square root:
      the off-diagonal residual of the adaptive blend. */
  function AdaptiveSquaredError(m: Matrix, nSamples: nat): (r: Result<real>)
    requires IsSquare(m) && nSamples > 0 && Sum(m) != 0.0
    ensures |m| > 0
    ensures r == Ok(OffDiagonalSquaredSum(m, CombinedIntensity(AdaptiveDiagonalShrinkage(|m|, nSamples),
      AdaptiveOffDiagonalShrinkage(m))) / (EntryCount(|m|) as real))
  {
    var trueCov := m;
    var d := AdaptiveDiagonalShrinkage(|m|, nSamples);
    var o := AdaptiveOffDiagonalShrinkage(m);
    ShrinkErrorIsOffDiagonal(m, d, o);
    FlattenedError(trueCov, AdaptiveShrink(m, nSamples))
  }
}
