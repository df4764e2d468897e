/** The DOASD estimator: a two-stage blend of an empirical covariance
    matrix with its own diagonal. Stage one, with the diagonal intensity
    `d`, computes `D = E * (1 - d) + diag(diag(E)) * d`; stage two, with the
    off-diagonal intensity `o`, computes `S = D * (1 - o) + diag(diag(D)) * o`. */
module Doasd {
  import opened Matrices

  datatype Option<T> = None | Some(value: T)

  /** One blend stage, `m * (1 - s) + np.diag(np.diag(m)) * s`: the diagonal
      is kept for every real `s`, and every off-diagonal entry is scaled by
      `1 - s`. */
  function Blend(m: Matrix, s: real): (r: Matrix)
    requires IsSquare(m)
    ensures IsSquare(r) && |r| == |m|
    ensures forall i :: 0 <= i < |m| ==> r[i][i] == m[i][i]
    ensures forall i, j :: 0 <= i < |m| && 0 <= j < |m| && i != j ==> r[i][j] == m[i][j] * (1.0 - s)
  {
    Add(Scale(m, 1.0 - s), Scale(DiagMatrix(Diagonal(m)), s))
  }

  /** The two stages of `DOASD.fit`. The result keeps the input diagonal and
      scales every off-diagonal entry by `(1 - d) * (1 - o)`. */
  function DoasdShrink(m: Matrix, d: real, o: real): (r: Matrix)
    requires IsSquare(m)
    ensures IsSquare(r) && |r| == |m|
    ensures forall i :: 0 <= i < |m| ==> r[i][i] == m[i][i]
    ensures forall i, j :: 0 <= i < |m| && 0 <= j < |m| && i != j ==> r[i][j] == m[i][j] * ((1.0 - d) * (1.0 - o))
  {
    var staged := Blend(m, d);
    var r := Blend(staged, o);
    forall i, j | 0 <= i < |m| && 0 <= j < |m| && i != j
      ensures r[i][j] == m[i][j] * ((1.0 - d) * (1.0 - o))
    {
      Reassociate(m[i][j], 1.0 - d, 1.0 - o);
    }
    r
  }

  lemma Reassociate(x: real, a: real, b: real)
    ensures (x * a) * b == x * (a * b)
  {
  }

  /** The intensity of the single blend that the two stages amount to. */
  function CombinedIntensity(d: real, o: real): real
  {
    1.0 - (1.0 - d) * (1.0 - o)
  }

  /** Two matrices of one size agree when their entries do. */
  lemma SquareExtensionality(a: Matrix, b: Matrix)
    requires IsSquare(a) && IsSquare(b) && |a| == |b|
    requires forall i, j :: 0 <= i < |a| && 0 <= j < |a| ==> a[i][j] == b[i][j]
    ensures a == b
  {
    forall i | 0 <= i < |a| ensures a[i] == b[i] {
      assert forall j :: 0 <= j < |a| ==> a[i][j] == b[i][j];
    }
  }

  /** The two stages equal one stage with intensity `1 - (1 - d)(1 - o)`. */
  lemma TwoStagesAreOneBlend(m: Matrix, d: real, o: real)
    requires IsSquare(m)
    ensures DoasdShrink(m, d, o) == Blend(m, CombinedIntensity(d, o))
  {
    var two, one := DoasdShrink(m, d, o), Blend(m, CombinedIntensity(d, o));
    forall i, j | 0 <= i < |m| && 0 <= j < |m|
      ensures two[i][j] == one[i][j]
    {
      if i != j {
        assert 1.0 - CombinedIntensity(d, o) == (1.0 - d) * (1.0 - o);
      }
    }
    SquareExtensionality(two, one);
  }

  /** With both intensities zero the estimate is the empirical covariance. */
  lemma NoShrinkageKeepsInput(m: Matrix)
    requires IsSquare(m)
    ensures DoasdShrink(m, 0.0, 0.0) == m
  {
    SquareExtensionality(DoasdShrink(m, 0.0, 0.0), m);
  }

  /** With either intensity one the estimate is the diagonal target
      `np.diag(np.diag(m))`. */
  lemma FullShrinkageIsDiagonalTarget(m: Matrix, d: real, o: real)
    requires IsSquare(m)
    requires d == 1.0 || o == 1.0
    ensures DoasdShrink(m, d, o) == DiagMatrix(Diagonal(m))
    ensures IsDiagonal(DoasdShrink(m, d, o))
  {
    var r := DoasdShrink(m, d, o);
    assert (1.0 - d) * (1.0 - o) == 0.0;
    SquareExtensionality(r, DiagMatrix(Diagonal(m)));
  }

  lemma MulDivCancel(x: real, k: real)
    requires k != 0.0
    ensures (x * k) / k == x
  {
  }

  lemma ProductZero(x: real, k: real)
    requires k != 0.0 && x * k == 0.0
    ensures x == 0.0
  {
    MulDivCancel(x, k);
  }

  /** The estimate is diagonal exactly when an intensity is one or the
      input already is diagonal. */
  lemma DiagonalResultIff(m: Matrix, d: real, o: real)
    requires IsSquare(m)
    ensures IsDiagonal(DoasdShrink(m, d, o)) <==> d == 1.0 || o == 1.0 || IsDiagonal(m)
  {
    var r := DoasdShrink(m, d, o);
    if d == 1.0 || o == 1.0 {
      FullShrinkageIsDiagonalTarget(m, d, o);
    } else if IsDiagonal(r) {
      forall i, j | 0 <= i < |m| && 0 <= j < |m| && i != j ensures m[i][j] == 0.0 {
        assert r[i][j] == 0.0;
        ScaledZero(m[i][j], 1.0 - d, 1.0 - o);
      }
    }
  }

  lemma ScaledZero(x: real, a: real, b: real)
    requires a != 0.0 && b != 0.0
    requires x * (a * b) == 0.0
    ensures x == 0.0
  {
    Reassociate(x, a, b);
    ProductZero(x * a, b);
    ProductZero(x, a);
  }

  /** Blending keeps a symmetric matrix symmetric. */
  lemma ShrinkPreservesSymmetry(m: Matrix, d: real, o: real)
    requires IsSquare(m) && IsSymmetric(m)
    ensures IsSymmetric(DoasdShrink(m, d, o))
  {
    var r := DoasdShrink(m, d, o);
    forall i, j | 0 <= i < |m| && 0 <= j < |m| ensures r[i][j] == r[j][i] {
      if i != j {
        assert r[i][j] == m[i][j] * ((1.0 - d) * (1.0 - o));
        assert r[j][i] == m[j][i] * ((1.0 - d) * (1.0 - o));
      }
    }
  }

  /** For intensities in [0, 1] the estimate shrinks: every entry moves
      towards zero and keeps its sign. */
  lemma ShrinkNeverAmplifies(m: Matrix, d: real, o: real)
    requires IsSquare(m)
    requires 0.0 <= d <= 1.0 && 0.0 <= o <= 1.0
    ensures forall i, j :: 0 <= i < |m| && 0 <= j < |m| && m[i][j] >= 0.0 ==>
      0.0 <= DoasdShrink(m, d, o)[i][j] <= m[i][j]
    ensures forall i, j :: 0 <= i < |m| && 0 <= j < |m| && m[i][j] <= 0.0 ==>
      m[i][j] <= DoasdShrink(m, d, o)[i][j] <= 0.0
  {
    var r := DoasdShrink(m, d, o);
    UnitProduct(1.0 - d, 1.0 - o, (1.0 - d) * (1.0 - o));
    forall i, j | 0 <= i < |m| && 0 <= j < |m| && i != j
      ensures m[i][j] >= 0.0 ==> 0.0 <= r[i][j] <= m[i][j]
      ensures m[i][j] <= 0.0 ==> m[i][j] <= r[i][j] <= 0.0
    {
      ShrunkEntry(m[i][j], (1.0 - d) * (1.0 - o), r[i][j]);
    }
  }

  /** A factor `(1 - d)(1 - o)` of at least one (what an intensity below
      zero can give) moves every entry away from zero. */
  lemma ShrinkAmplifiesBeyondOne(m: Matrix, d: real, o: real)
    requires IsSquare(m)
    requires (1.0 - d) * (1.0 - o) >= 1.0
    ensures forall i, j :: 0 <= i < |m| && 0 <= j < |m| && m[i][j] >= 0.0 ==>
      DoasdShrink(m, d, o)[i][j] >= m[i][j]
    ensures forall i, j :: 0 <= i < |m| && 0 <= j < |m| && m[i][j] <= 0.0 ==>
      DoasdShrink(m, d, o)[i][j] <= m[i][j]
  {
    var r := DoasdShrink(m, d, o);
    forall i, j | 0 <= i < |m| && 0 <= j < |m| && i != j
      ensures m[i][j] >= 0.0 ==> r[i][j] >= m[i][j]
      ensures m[i][j] <= 0.0 ==> r[i][j] <= m[i][j]
    {
      AmplifiedEntry(m[i][j], (1.0 - d) * (1.0 - o), r[i][j]);
    }
  }

  /** An entry scaled by a factor in [0, 1] moves towards zero and keeps
      its sign. */
  lemma ShrunkEntry(x: real, k: real, y: real)
    requires 0.0 <= k <= 1.0 && y == x * k
    ensures x >= 0.0 ==> 0.0 <= y <= x
    ensures x <= 0.0 ==> x <= y <= 0.0
  {
    if x >= 0.0 {
      UnitProduct(x, k, y);
    } else {
      NegUnitProduct(x, k, y);
    }
  }

  /** An entry scaled by a factor of at least one moves away from zero. */
  lemma AmplifiedEntry(x: real, k: real, y: real)
    requires k >= 1.0 && y == x * k
    ensures x >= 0.0 ==> y >= x
    ensures x <= 0.0 ==> y <= x
  {
    if x >= 0.0 {
      AmplifiedProduct(x, k, y);
    } else {
      NegAmplifiedProduct(x, k, y);
    }
  }

  lemma UnitProduct(a: real, b: real, y: real)
    requires 0.0 <= a && 0.0 <= b <= 1.0 && y == a * b
    ensures 0.0 <= y <= a
  {
  }

  lemma NegUnitProduct(a: real, b: real, y: real)
    requires a <= 0.0 && 0.0 <= b <= 1.0 && y == a * b
    ensures a <= y <= 0.0
  {
  }

  lemma AmplifiedProduct(a: real, b: real, y: real)
    requires 0.0 <= a && b >= 1.0 && y == a * b
    ensures y >= a
  {
  }

  lemma NegAmplifiedProduct(a: real, b: real, y: real)
    requires a <= 0.0 && b >= 1.0 && y == a * b
    ensures y <= a
  {
  }

  /** The worked example: intensities 0.5 and 0.1 on `[[4, 2], [2, 9]]` give
      `[[4, 1], [1, 9]]` after stage one and `[[4, 0.9], [0.9, 9]]` after
      stage two. */
  lemma WorkedExample()
    ensures Blend([[4.0, 2.0], [2.0, 9.0]], 0.5) == [[4.0, 1.0], [1.0, 9.0]]
    ensures DoasdShrink([[4.0, 2.0], [2.0, 9.0]], 0.5, 0.1) == [[4.0, 0.9], [0.9, 9.0]]
  {
    var e := [[4.0, 2.0], [2.0, 9.0]];
    SquareExtensionality(Blend(e, 0.5), [[4.0, 1.0], [1.0, 9.0]]);
    SquareExtensionality(DoasdShrink(e, 0.5, 0.1), [[4.0, 0.9], [0.9, 9.0]]);
  }

  /** The `DOASD` estimator object: its two intensities, set at
      construction, and the `covariance_` attribute that `fit` writes. */
  class Estimator {
    var diagonalShrinkage: real
    var offDiagonalShrinkage: real
    var covariance: Option<Matrix>

    constructor (diagonalShrinkage: real := 0.5, offDiagonalShrinkage: real := 0.1)
      ensures this.diagonalShrinkage == diagonalShrinkage
      ensures this.offDiagonalShrinkage == offDiagonalShrinkage
      ensures covariance == None
    {
      this.diagonalShrinkage := diagonalShrinkage;
      this.offDiagonalShrinkage := offDiagonalShrinkage;
      covariance := None;
    }

    /** `fit` on the empirical covariance `empCov` (the `np.cov` of the
        data): replaces `covariance_` by the two-stage blend and leaves the
        intensities alone. */
    method Fit(empCov: Matrix)
      requires IsSquare(empCov)
      modifies this`covariance
      ensures covariance == Some(DoasdShrink(empCov, diagonalShrinkage, offDiagonalShrinkage))
    {
      var shrunkDiagCov := Blend(empCov, diagonalShrinkage);
      var shrunkCov := Blend(shrunkDiagCov, offDiagonalShrinkage);
      covariance := Some(shrunkCov);
    }
  }
}
