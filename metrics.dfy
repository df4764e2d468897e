/** The reconstruction-error metric used to compare covariance estimates:
    the mean of squared differences between two flattened matrices, as
    `mean_squared_error(reference.ravel(), estimate.ravel())` computes it
    before the square root is taken. */
module Metrics {
  import opened Matrices

  datatype MetricError = DimensionMismatch | EmptyInput

  datatype Result<T> = Ok(value: T) | Err(error: MetricError)

  /** The entrywise squared differences of two vectors of equal length. */
  function SquaredDiffs(a: seq<real>, b: seq<real>): (r: seq<real>)
    requires |a| == |b|
    ensures |r| == |a|
  {
    seq(|a|, k requires 0 <= k < |a| => (a[k] - b[k]) * (a[k] - b[k]))
  }

  /** The mean of `(a - b)²` over all positions; vectors of different
      lengths, or empty ones, are refused. */
  function MeanSquaredError(a: seq<real>, b: seq<real>): (r: Result<real>)
    ensures r.Ok? <==> |a| == |b| && |a| > 0
    ensures r == Err(DimensionMismatch) <==> |a| != |b|
    ensures r.Ok? ==> r.value >= 0.0
  {
    if |a| != |b| then Err(DimensionMismatch)
    else if |a| == 0 then Err(EmptyInput)
    else
      SquaredDiffsNonNegative(a, b);
      SumSeqNonNegative(SquaredDiffs(a, b));
      Ok(SumSeq(SquaredDiffs(a, b)) / (|a| as real))
  }

  /** The flattened error between a reference and an estimate matrix. */
  function FlattenedError(reference: Matrix, estimate: Matrix): (r: Result<real>)
    requires IsSquare(reference) && IsSquare(estimate)
    ensures |reference| == |estimate| && |reference| > 0 ==> r.Ok?
    ensures r.Ok? ==> r.value >= 0.0
  {
    RavelAt(reference, |reference|, |reference|);
    RavelAt(estimate, |estimate|, |estimate|);
    MeanSquaredError(Ravel(reference), Ravel(estimate))
  }

  lemma SquareNonNegative(x: real)
    ensures x * x >= 0.0
  {
  }

  lemma SquareOverSelf(x: real)
    requires x != 0.0
    ensures (x * x) / x == x
  {
  }

  /** A square is zero only at zero (through `(x * x) / x == x`). */
  lemma SquareZero(x: real)
    requires x * x == 0.0
    ensures x == 0.0
  {
    if x != 0.0 {
      SquareOverSelf(x);
    }
  }

  /** Every squared difference is non-negative. */
  lemma SquaredDiffsNonNegative(a: seq<real>, b: seq<real>)
    requires |a| == |b|
    ensures forall k :: 0 <= k < |a| ==> SquaredDiffs(a, b)[k] >= 0.0
  {
    forall k | 0 <= k < |a| ensures SquaredDiffs(a, b)[k] >= 0.0 {
      SquareNonNegative(a[k] - b[k]);
    }
  }

  /** The error is symmetric in its two arguments, error cases included. */
  lemma MeanSquaredErrorSymmetric(a: seq<real>, b: seq<real>)
    ensures MeanSquaredError(a, b) == MeanSquaredError(b, a)
  {
    if |a| == |b| {
      assert SquaredDiffs(a, b) == SquaredDiffs(b, a) by {
        forall k | 0 <= k < |a| ensures SquaredDiffs(a, b)[k] == SquaredDiffs(b, a)[k] {
          assert (a[k] - b[k]) * (a[k] - b[k]) == (b[k] - a[k]) * (b[k] - a[k]);
        }
      }
    }
  }

  /** The error is zero exactly when the two (non-empty) vectors are equal. */
  lemma MeanSquaredErrorZero(a: seq<real>, b: seq<real>)
    requires |a| == |b| && |a| > 0
    ensures MeanSquaredError(a, b) == Ok(0.0) <==> a == b
  {
    var d := SquaredDiffs(a, b);
    SquaredDiffsNonNegative(a, b);
    SumSeqNonNegative(d);
    if a == b {
      assert forall k :: 0 <= k < |a| ==> d[k] == 0.0;
    }
    if MeanSquaredError(a, b) == Ok(0.0) {
      assert SumSeq(d) == 0.0;
      forall k | 0 <= k < |a| ensures a[k] == b[k] {
        assert d[k] == 0.0;
        SquareZero(a[k] - b[k]);
      }
    }
  }

  /** On matrices: zero against itself, and symmetric. */
  lemma FlattenedErrorProperties(a: Matrix, b: Matrix)
    requires IsSquare(a) && IsSquare(b)
    ensures FlattenedError(a, b) == FlattenedError(b, a)
    ensures |a| > 0 ==> FlattenedError(a, a) == Ok(0.0)
  {
    MeanSquaredErrorSymmetric(Ravel(a), Ravel(b));
    if |a| > 0 {
      RavelAt(a, |a|, |a|);
      MeanSquaredErrorZero(Ravel(a), Ravel(a));
    }
  }

  /** The error of concatenated vectors adds up blockwise (before the
      division by the length). */
  lemma SquaredDiffsAppend(a1: seq<real>, a2: seq<real>, b1: seq<real>, b2: seq<real>)
    requires |a1| == |b1| && |a2| == |b2|
    ensures SumSeq(SquaredDiffs(a1 + a2, b1 + b2)) == SumSeq(SquaredDiffs(a1, b1)) + SumSeq(SquaredDiffs(a2, b2))
  {
    var whole, parts := SquaredDiffs(a1 + a2, b1 + b2), SquaredDiffs(a1, b1) + SquaredDiffs(a2, b2);
    assert whole == parts by {
      forall k | 0 <= k < |whole| ensures whole[k] == parts[k] {
        if k < |a1| {
          assert (a1 + a2)[k] == a1[k] && (b1 + b2)[k] == b1[k];
        } else {
          assert (a1 + a2)[k] == a2[k - |a1|] && (b1 + b2)[k] == b2[k - |a1|];
        }
      }
    }
    SumSeqAppend(SquaredDiffs(a1, b1), SquaredDiffs(a2, b2));
  }
}
