/** Exact-arithmetic counterparts of the few numpy array operations the
    DOASD estimator uses: scalar multiplication, entrywise addition,
    `np.diag` in both directions, `ravel`, `np.sum` and the trace.
    A matrix is a sequence of rows. */
module Matrices {

  type Matrix = seq<seq<real>>

  /** `m` has `rows` rows, each of length `cols`. */
  predicate IsMatrix(m: Matrix, rows: nat, cols: nat) {
    |m| == rows && forall i :: 0 <= i < rows ==> |m[i]| == cols
  }

  /** `m` is a square `|m|`-by-`|m|` matrix, the shape `np.cov` returns. */
  predicate IsSquare(m: Matrix) {
    IsMatrix(m, |m|, |m|)
  }

  predicate IsSymmetric(m: Matrix)
    requires IsSquare(m)
  {
    forall i, j :: 0 <= i < |m| && 0 <= j < |m| ==> m[i][j] == m[j][i]
  }

  /** Every off-diagonal entry is zero: the diagonal shrinkage target. */
  predicate IsDiagonal(m: Matrix)
    requires IsSquare(m)
  {
    forall i, j :: 0 <= i < |m| && 0 <= j < |m| && i != j ==> m[i][j] == 0.0
  }

  /** `m * c` for a numpy array `m` and a scalar `c`. */
  function Scale(m: Matrix, c: real): (r: Matrix)
    ensures |r| == |m|
    ensures forall i :: 0 <= i < |m| ==> |r[i]| == |m[i]|
  {
    seq(|m|, i requires 0 <= i < |m| => seq(|m[i]|, j requires 0 <= j < |m[i]| => m[i][j] * c))
  }

  /** `a + b` for two numpy arrays of the same shape. */
  function Add(a: Matrix, b: Matrix): (r: Matrix)
    requires |a| == |b|
    requires forall i :: 0 <= i < |a| ==> |a[i]| == |b[i]|
    ensures |r| == |a|
    ensures forall i :: 0 <= i < |a| ==> |r[i]| == |a[i]|
  {
    seq(|a|, i requires 0 <= i < |a| => seq(|a[i]|, j requires 0 <= j < |a[i]| => a[i][j] + b[i][j]))
  }

  /** `np.diag(m)` for a square two-dimensional `m`: its main diagonal. */
  function Diagonal(m: Matrix): (v: seq<real>)
    requires IsSquare(m)
    ensures |v| == |m|
  {
    seq(|m|, i requires 0 <= i < |m| => m[i][i])
  }

  /** `np.diag(v)` for a one-dimensional `v`: the square matrix with `v` on
      its diagonal and zero elsewhere. */
  function DiagMatrix(v: seq<real>): (r: Matrix)
    ensures IsSquare(r) && |r| == |v|
  {
    seq(|v|, i requires 0 <= i < |v| => seq(|v|, j requires 0 <= j < |v| => if i == j then v[i] else 0.0))
  }

  /** `m.ravel()`: the rows of `m` concatenated in row-major order. */
  function Ravel(m: Matrix): seq<real>
  {
    if |m| == 0 then [] else Ravel(m[..|m| - 1]) + m[|m| - 1]
  }

  /** The sum of a vector, accumulated from the front. */
  function SumSeq(s: seq<real>): real
  {
    if |s| == 0 then 0.0 else SumSeq(s[..|s| - 1]) + s[|s| - 1]
  }

  /** `np.sum(m)`: the sum of all entries. */
  function Sum(m: Matrix): real
  {
    SumSeq(Ravel(m))
  }

  /** `np.sum(np.diag(m))`: the trace. */
  function Trace(m: Matrix): real
    requires IsSquare(m)
  {
    SumSeq(Diagonal(m))
  }

  /** The sum of the off-diagonal entries of the first `k` rows of `m`,
      written independently of `Ravel`. */
  function OffDiagonalSumRows(m: Matrix, k: nat): real
    requires IsSquare(m) && k <= |m|
  {
    if k == 0 then 0.0
    else OffDiagonalSumRows(m, k - 1) + SumSeq(m[k - 1][(k - 1) := 0.0])
  }

  /** The sum of all off-diagonal entries of `m`. */
  function OffDiagonalSum(m: Matrix): real
    requires IsSquare(m)
  {
    OffDiagonalSumRows(m, |m|)
  }

  // ----- ravel -----

  /** A `rows`-by-`cols` matrix ravels to `rows * cols` entries. */
  lemma {:induction false} RavelLength(m: Matrix, rows: nat, cols: nat)
    requires IsMatrix(m, rows, cols)
    ensures |Ravel(m)| == rows * cols
  {
    if rows > 0 {
      RavelLength(m[..rows - 1], rows - 1, cols);
      assert rows * cols == (rows - 1) * cols + cols;
    }
  }

  /** Ravelling the first `k` rows appends row `k - 1` to the ravel of the
      first `k - 1`. */
  lemma RavelPrefix(m: Matrix, k: nat)
    requires 0 < k <= |m|
    ensures Ravel(m[..k]) == Ravel(m[..k - 1]) + m[k - 1]
  {
    assert m[..k][..k - 1] == m[..k - 1];
  }

  lemma RowOffset(i: nat, j: nat, rows: nat, cols: nat)
    requires i < rows - 1 && j < cols
    ensures i * cols + j < (rows - 1) * cols
  {
    assert (i + 1) * cols <= (rows - 1) * cols by {
      MulMonotone(i + 1, rows - 1, cols);
    }
  }

  lemma MulMonotone(a: nat, b: nat, c: nat)
    requires a <= b
    ensures a * c <= b * c
  {
  }

  /** Ravel lays a `rows`-by-`cols` matrix out row after row: entry (i, j)
      lands at position `i * cols + j`. */
  lemma RavelAt(m: Matrix, rows: nat, cols: nat)
    requires IsMatrix(m, rows, cols)
    ensures |Ravel(m)| == rows * cols
    ensures forall i, j :: 0 <= i < rows && 0 <= j < cols ==> Ravel(m)[i * cols + j] == m[i][j]
  {
    RavelLength(m, rows, cols);
    forall i, j | 0 <= i < rows && 0 <= j < cols
      ensures i * cols + j < |Ravel(m)| && Ravel(m)[i * cols + j] == m[i][j]
    {
      RavelEntry(m, rows, cols, i, j);
    }
  }

  lemma {:induction false} RavelEntry(m: Matrix, rows: nat, cols: nat, i: nat, j: nat)
    requires IsMatrix(m, rows, cols) && i < rows && j < cols
    ensures i * cols + j < |Ravel(m)| && Ravel(m)[i * cols + j] == m[i][j]
  {
    var init := m[..rows - 1];
    assert Ravel(m) == Ravel(init) + m[rows - 1];
    RavelLength(init, rows - 1, cols);
    if i < rows - 1 {
      RowOffset(i, j, rows, cols);
      RavelEntry(init, rows - 1, cols, i, j);
      assert init[i] == m[i];
    } else {
      assert i * cols + j == |Ravel(init)| + j;
    }
  }

  // ----- sums -----

  lemma {:induction false} SumSeqAppend(a: seq<real>, b: seq<real>)
    ensures SumSeq(a + b) == SumSeq(a) + SumSeq(b)
  {
    if |b| > 0 {
      var b' := b[..|b| - 1];
      assert (a + b)[..|a + b| - 1] == a + b';
      SumSeqAppend(a, b');
    } else {
      assert a + b == a;
    }
  }

  /** A sum of non-negative terms is non-negative, and it is zero exactly
      when every term is zero. */
  lemma {:induction false} SumSeqNonNegative(s: seq<real>)
    requires forall k :: 0 <= k < |s| ==> s[k] >= 0.0
    ensures SumSeq(s) >= 0.0
    ensures SumSeq(s) == 0.0 <==> forall k :: 0 <= k < |s| ==> s[k] == 0.0
  {
    if |s| > 0 {
      var s' := s[..|s| - 1];
      SumSeqNonNegative(s');
      if SumSeq(s) == 0.0 {
        forall k | 0 <= k < |s| ensures s[k] == 0.0 {
          if k < |s| - 1 { assert s[k] == s'[k]; }
        }
      }
    }
  }

  /** Zeroing one term of a sum removes exactly that term. */
  lemma {:induction false} SumSeqPoint(s: seq<real>, k: nat)
    requires k < |s|
    ensures SumSeq(s) == s[k] + SumSeq(s[k := 0.0])
  {
    var n := |s| - 1;
    var t := s[k := 0.0];
    assert t[..n] == if k < n then s[..n][k := 0.0] else s[..n];
    if k < n {
      SumSeqPoint(s[..n], k);
    }
  }

  /** The sum of every entry is the trace plus the off-diagonal sum. */
  lemma SumIsTracePlusOffDiagonal(m: Matrix)
    requires IsSquare(m)
    ensures Sum(m) == Trace(m) + OffDiagonalSum(m)
  {
    var n := |m|;
    SumPrefixSplit(m, n);
    assert m[..n] == m;
    assert Diagonal(m)[..n] == Diagonal(m);
  }

  lemma {:induction false} SumPrefixSplit(m: Matrix, k: nat)
    requires IsSquare(m) && k <= |m|
    ensures SumSeq(Ravel(m[..k])) == SumSeq(Diagonal(m)[..k]) + OffDiagonalSumRows(m, k)
  {
    if k > 0 {
      SumPrefixSplit(m, k - 1);
      assert m[..k][..k - 1] == m[..k - 1];
      assert Diagonal(m)[..k][..k - 1] == Diagonal(m)[..k - 1];
      SumSeqAppend(Ravel(m[..k - 1]), m[k - 1]);
      SumSeqPoint(m[k - 1], k - 1);
    }
  }
}
