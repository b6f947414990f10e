/**
 * The model normalisation at the start of `SIR.synthesize` (pysir/sir.py) and `synthesizeSIR` (pySIR.py):
 * the electron-pressure column of a 7-column model, and the Cartesian-to-spherical field conversion.
 */
module Normalizer {
  import opened Wrappers
  import opened Numerics
  import opened Arrays

  /** The value that marks the electron pressure as unset: the engine computes it. */
  const PeUnset: real := -1.0

  /** The electron pressure fixed at the deepest point, `1.11634e-01`. */
  const PeBoundary: real := 0.111634

  /** `np.insert(m, at, fill, axis=1)`: a new matrix with a column of `fill` before column `at`. */
  function InsertColumn(m: Matrix, cols: nat, at: nat, fill: real): (r: Matrix)
    requires IsShape(m, |m|, cols) && at <= cols
    ensures IsShape(r, |m|, cols + 1)
    ensures forall i, c :: 0 <= i < |m| && 0 <= c < at ==> r[i][c] == m[i][c]
    ensures forall i :: 0 <= i < |m| ==> r[i][at] == fill
    ensures forall i, c :: 0 <= i < |m| && at < c <= cols ==> r[i][c] == m[i][c - 1]
  {
    seq(|m|, i requires 0 <= i < |m| => m[i][..at] + [fill] + m[i][at..])
  }

  /** The 8-column model made from a 7-column one: unset electron pressure inserted at column 2, then the boundary value in the last row. */
  function WithElectronPressure(m: Matrix): (r: Matrix)
    requires |m| >= 1 && IsShape(m, |m|, 7)
    ensures IsShape(r, |m|, 8)
  {
    var inserted := InsertColumn(m, 7, 2, PeUnset);
    inserted[|m| - 1 := inserted[|m| - 1][2 := PeBoundary]]
  }

  /**
   * Columns 0-1 of the 7-column model keep their place and columns 2-6 move to 3-7 unchanged;
   * the new column 2 is -1 in every row except the last, where it is 0.111634.
   */
  lemma ElectronPressureLayout(m: Matrix)
    requires |m| >= 1 && IsShape(m, |m|, 7)
    ensures var r := WithElectronPressure(m);
      && IsShape(r, |m|, 8)
      && (forall i, c :: 0 <= i < |m| && 0 <= c < 2 ==> r[i][c] == m[i][c])
      && (forall i, c :: 0 <= i < |m| && 3 <= c < 8 ==> r[i][c] == m[i][c - 1])
      && (forall i :: 0 <= i < |m| - 1 ==> r[i][2] == PeUnset)
      && r[|m| - 1][2] == PeBoundary
  {
  }

  /** The columns the engine receives: a 7-column model gains its electron-pressure column, any other passes through. */
  function WithAllColumns(m: Matrix, cols: nat): (r: Result<Matrix, Failure>)
    requires IsShape(m, |m|, cols)
    ensures r.Ok? ==> IsShape(r.value, |m|, if cols == 7 then 8 else cols)
    ensures r.Err? <==> cols == 7 && |m| == 0
  {
    if cols != 7 then Ok(m)
    else if |m| == 0 then Err(IndexError)  // `model[-1, 2]` on a model without rows
    else Ok(WithElectronPressure(m))
  }

  /** A model whose column count is not 7 reaches the engine exactly as it was given. */
  lemma OtherWidthsPassThrough(m: Matrix, cols: nat)
    requires IsShape(m, |m|, cols) && cols != 7
    ensures WithAllColumns(m, cols) == Ok(m)
  {
  }

  /** `np.insert` followed by `model[-1, 2] = 1.11634e-01`: a new 8-column array; the given one is not touched. */
  method InsertElectronPressure(model: array2<real>) returns (out: array2<real>)
    requires model.Length1 == 7 && model.Length0 >= 1
    ensures fresh(out) && out.Length0 == model.Length0 && out.Length1 == 8
    ensures Snapshot(out) == WithElectronPressure(Snapshot(model))
  {
    var n := model.Length0;
    out := new real[n, 8]((i, c) reads model requires 0 <= i < n && 0 <= c < 8 =>
      if c < 2 then model[i, c] else if c == 2 then PeUnset else model[i, c - 1]);
    out[n - 1, 2] := PeBoundary;
    ghost var m := Snapshot(model);
    ghost var expected := WithElectronPressure(m);
    forall i | 0 <= i < n ensures Snapshot(out)[i] == expected[i] {
      assert forall c :: 0 <= c < 8 ==> Snapshot(out)[i][c] == expected[i][c];
    }
  }

  /** `np.sqrt(Bx**2 + By**2 + Bz**2)`: never negative. */
  function Strength(num: Numerics, x: real, y: real, z: real): (s: real)
    requires SqrtNonNegative(num)
    ensures s >= 0.0
  {
    num.sqrt(x * x + y * y + z * z)
  }

  /**
   * One row after lines 213-215 of pysir/sir.py: column 4 becomes the field strength, column 6 the
   * inclination from Bz and that strength, and column 7 the arctangent of the columns 6 and 4 as they
   * are now, since `By` and `Bx` are views of those already overwritten columns. Nothing else changes.
   */
  function SphericalRow(num: Numerics, row: seq<real>): (r: seq<real>)
    requires |row| >= 8 && SqrtNonNegative(num)
    ensures |r| == |row|
    ensures forall c :: 0 <= c < |row| && c != 4 && c != 6 && c != 7 ==> r[c] == row[c]
  {
    var strength := Strength(num, row[4], row[6], row[7]);
    var inclination := Degrees * num.acos(row[7] / (strength + Regularizer));
    var azimuth := Degrees * num.atan2(inclination, strength);
    row[4 := strength][6 := inclination][7 := azimuth]
  }

  /** The Cartesian conversion of every row. */
  function Spherical(num: Numerics, m: Matrix, cols: nat): (r: Matrix)
    requires IsShape(m, |m|, cols) && cols >= 8 && SqrtNonNegative(num)
    ensures IsShape(r, |m|, cols)
  {
    seq(|m|, i requires 0 <= i < |m| => SphericalRow(num, m[i]))
  }

  /** The matrix with column `col` replaced by `values`. */
  function WithColumn(m: Matrix, cols: nat, col: nat, values: seq<real>): (r: Matrix)
    requires IsShape(m, |m|, cols) && col < cols && |values| == |m|
    ensures IsShape(r, |m|, cols)
    ensures forall i, c :: 0 <= i < |m| && 0 <= c < cols ==> r[i][c] == if c == col then values[i] else m[i][c]
  {
    seq(|m|, i requires 0 <= i < |m| => m[i][col := values[i]])
  }

  /** `model[:, col] = values`: one column replaced in place, every other element left as it was. */
  method SetColumn(model: array2<real>, col: nat, values: seq<real>)
    requires col < model.Length1 && |values| == model.Length0
    modifies model
    ensures Snapshot(model) == WithColumn(old(Snapshot(model)), model.Length1, col, values)
  {
    ghost var before := Snapshot(model);
    forall i | 0 <= i < model.Length0 {
      model[i, col] := values[i];
    }
    ghost var expected := WithColumn(before, model.Length1, col, values);
    forall i | 0 <= i < model.Length0 ensures Snapshot(model)[i] == expected[i] {
      assert forall c :: 0 <= c < model.Length1 ==> Snapshot(model)[i][c] == expected[i][c];
    }
  }

  /** The right-hand side of `model[:, 4] = np.sqrt(Bx**2 + By**2 + Bz**2)`. */
  function StrengthColumn(num: Numerics, m: Matrix, cols: nat): (r: seq<real>)
    requires IsShape(m, |m|, cols) && cols >= 8 && SqrtNonNegative(num)
    ensures |r| == |m| && forall i :: 0 <= i < |m| ==> r[i] >= 0.0
  {
    seq(|m|, i requires 0 <= i < |m| => Strength(num, m[i][4], m[i][6], m[i][7]))
  }

  /** The right-hand side of `model[:, 6] = np.rad2deg(np.arccos(Bz / (model[:, 4] + 1e-8)))`, for a non-negative column 4. */
  function InclinationColumn(num: Numerics, m: Matrix, cols: nat): (r: seq<real>)
    requires IsShape(m, |m|, cols) && cols >= 8
    requires forall i :: 0 <= i < |m| ==> m[i][4] >= 0.0
    ensures |r| == |m|
  {
    seq(|m|, i requires 0 <= i < |m| => Degrees * num.acos(m[i][7] / (m[i][4] + Regularizer)))
  }

  /** The right-hand side of `model[:, 7] = np.rad2deg(np.arctan2(By, Bx))`, with `By` and `Bx` the current columns 6 and 4. */
  function AzimuthColumn(num: Numerics, m: Matrix, cols: nat): (r: seq<real>)
    requires IsShape(m, |m|, cols) && cols >= 8
    ensures |r| == |m|
  {
    seq(|m|, i requires 0 <= i < |m| => Degrees * num.atan2(m[i][6], m[i][4]))
  }

  /**
   * The three column assignments of the Cartesian conversion, in place and in source order, each
   * computing its right-hand side from the array as it is at that point. The model must have the
   * columns 4, 6 and 7 that `model[:, 4]`, `model[:, 6]` and `model[:, 7]` index.
   */
  method ConvertToSpherical(num: Numerics, model: array2<real>)
    requires model.Length1 >= 8 && SqrtNonNegative(num)
    modifies model
    ensures Snapshot(model) == Spherical(num, old(Snapshot(model)), model.Length1)
  {
    var w := model.Length1;
    ghost var m := Snapshot(model);
    SetColumn(model, 4, StrengthColumn(num, Snapshot(model), w));
    SetColumn(model, 6, InclinationColumn(num, Snapshot(model), w));
    SetColumn(model, 7, AzimuthColumn(num, Snapshot(model), w));
    SphericalByColumns(num, m, w);
  }

  /** Writing the three columns one after the other, each from the matrix as the previous one left it, is the row-wise conversion. */
  lemma SphericalByColumns(num: Numerics, m: Matrix, cols: nat)
    requires IsShape(m, |m|, cols) && cols >= 8 && SqrtNonNegative(num)
    ensures var m1 := WithColumn(m, cols, 4, StrengthColumn(num, m, cols));
      var m2 := WithColumn(m1, cols, 6, InclinationColumn(num, m1, cols));
      WithColumn(m2, cols, 7, AzimuthColumn(num, m2, cols)) == Spherical(num, m, cols)
  {
    var m1 := WithColumn(m, cols, 4, StrengthColumn(num, m, cols));
    var m2 := WithColumn(m1, cols, 6, InclinationColumn(num, m1, cols));
    var m3 := WithColumn(m2, cols, 7, AzimuthColumn(num, m2, cols));
    var expected := Spherical(num, m, cols);
    forall i | 0 <= i < |m| ensures m3[i] == expected[i] {
      assert m3[i][4] == m1[i][4] && m3[i][6] == m2[i][6];
      assert forall c :: 0 <= c < cols && c != 4 && c != 6 && c != 7 ==> m3[i][c] == m[i][c];
      ConvertedRow(num, m[i], m3[i]);
    }
  }

  /** A row that has the three converted columns computed from `row`, and agrees with it elsewhere, is `SphericalRow(row)`. */
  lemma ConvertedRow(num: Numerics, row: seq<real>, converted: seq<real>)
    requires |row| >= 8 && SqrtNonNegative(num) && |converted| == |row|
    requires converted[4] == Strength(num, row[4], row[6], row[7])
    requires converted[6] == Degrees * num.acos(row[7] / (converted[4] + Regularizer))
    requires converted[7] == Degrees * num.atan2(converted[6], converted[4])
    requires forall c :: 0 <= c < |row| && c != 4 && c != 6 && c != 7 ==> converted[c] == row[c]
    ensures converted == SphericalRow(num, row)
  {
    var expected := SphericalRow(num, row);
    assert converted[4] == expected[4] && converted[6] == expected[6] && converted[7] == expected[7];
    assert forall c :: 0 <= c < |row| ==> converted[c] == expected[c];
  }

  /** What the engine receives: all columns present, then converted to strength, inclination and azimuth when `cartesian`. */
  function Normalize(num: Numerics, m: Matrix, cols: nat, cartesian: bool): (r: Result<Matrix, Failure>)
    requires IsShape(m, |m|, cols) && SqrtNonNegative(num)
    ensures r.Ok? ==> IsShape(r.value, |m|, if cols == 7 then 8 else cols)
    ensures r.Err? <==> (cols == 7 && |m| == 0) || (cartesian && cols < 7)
    ensures r.Err? ==> r.error == IndexError
  {
    var full :- WithAllColumns(m, cols);
    var width := if cols == 7 then 8 else cols;
    if !cartesian then Ok(full)
    else if width < 8 then Err(IndexError)  // `model[:, 7]` beyond the last column
    else Ok(Spherical(num, full, width))
  }

  /**
   * The converted row: the strength of (Bx, By, Bz), the inclination in degrees from Bz regularised by
   * `1e-8`, and the azimuth from the new inclination and strength, not from By and Bx.
   */
  lemma SphericalRowValues(num: Numerics, row: seq<real>)
    requires |row| >= 8 && SqrtNonNegative(num)
    ensures var r := SphericalRow(num, row);
      var strength := num.sqrt(row[4] * row[4] + row[6] * row[6] + row[7] * row[7]);
      && r[4] == strength
      && strength + Regularizer > 0.0
      && r[6] == Degrees * num.acos(row[7] / (strength + Regularizer))
      && r[7] == Degrees * num.atan2(r[6], r[4])
  {
  }

  /** A zero field divides by `sqrt(0) + 1e-8`, never by zero: the inclination is `acos(0)` in degrees. */
  lemma ZeroFieldIsRegular(num: Numerics, row: seq<real>)
    requires |row| >= 8 && SqrtNonNegative(num)
    requires row[4] == 0.0 && row[6] == 0.0 && row[7] == 0.0
    ensures SphericalRow(num, row)[4] == num.sqrt(0.0)
    ensures SphericalRow(num, row)[6] == Degrees * num.acos(0.0)
  {
    assert Strength(num, row[4], row[6], row[7]) == num.sqrt(0.0);
    var below := num.sqrt(0.0) + Regularizer;
    assert below > 0.0;
    assert 0.0 / below == 0.0;
  }

  lemma StrengthIgnoresSign(num: Numerics, x: real, y: real, z: real)
    requires SqrtNonNegative(num)
    ensures Strength(num, x, -y, z) == Strength(num, x, y, z)
  {
  }

  /**
   * Because the azimuth is computed from the overwritten columns, the conversion cannot tell By from -By:
   * two fields that differ only in the sign of By get the same strength, inclination and azimuth.
   */
  lemma BySignIsLost(num: Numerics, row: seq<real>)
    requires |row| >= 8 && SqrtNonNegative(num)
    ensures SphericalRow(num, row) == SphericalRow(num, row[6 := -row[6]])
  {
    var flipped := row[6 := -row[6]];
    StrengthIgnoresSign(num, row[4], row[6], row[7]);
    assert flipped[4] == row[4] && flipped[6] == -row[6] && flipped[7] == row[7];
    var r, f := SphericalRow(num, row), SphericalRow(num, flipped);
    assert r[4] == f[4] && r[6] == f[6] && r[7] == f[7];
    assert forall c :: 0 <= c < |r| ==> r[c] == f[c];
  }
}
