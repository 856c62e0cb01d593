/**
 * Dense real matrices stored row by row, standing for the nalgebra matrices
 * (`OMatrix<f32, U3, Dyn>`, `OMatrix<f32, U4, Dyn>`) the spectrum code works on.
 * f32 is modelled as `real`: no rounding and no NaN.
 */
module Matrix {
  import opened Wrappers

  type Matrix = seq<seq<real>>

  predicate IsMatrix(m: Matrix, rows: nat, cols: nat)
  {
    |m| == rows && forall i :: 0 <= i < rows ==> |m[i]| == cols
  }

  /** Number of columns (0 for a matrix without rows). */
  function Cols(m: Matrix): nat
  {
    if m == [] then 0 else |m[0]|
  }

  function Max(x: real, y: real): real
  {
    if x >= y then x else y
  }

  function Min(x: real, y: real): real
  {
    if x <= y then x else y
  }

  function Zeros(rows: nat, cols: nat): (z: Matrix)
    ensures IsMatrix(z, rows, cols)
    ensures forall i, j :: 0 <= i < rows && 0 <= j < cols ==> z[i][j] == 0.0
  {
    seq(rows, _ => seq(cols, _ => 0.0))
  }

  function Add(a: Matrix, b: Matrix, rows: nat, cols: nat): (c: Matrix)
    requires IsMatrix(a, rows, cols) && IsMatrix(b, rows, cols)
    ensures IsMatrix(c, rows, cols)
    ensures forall i, j :: 0 <= i < rows && 0 <= j < cols ==> c[i][j] == a[i][j] + b[i][j]
  {
    seq(rows, i requires 0 <= i < rows => seq(cols, j requires 0 <= j < cols => a[i][j] + b[i][j]))
  }

  function Sub(a: Matrix, b: Matrix, rows: nat, cols: nat): (c: Matrix)
    requires IsMatrix(a, rows, cols) && IsMatrix(b, rows, cols)
    ensures IsMatrix(c, rows, cols)
    ensures forall i, j :: 0 <= i < rows && 0 <= j < cols ==> c[i][j] == a[i][j] - b[i][j]
  {
    seq(rows, i requires 0 <= i < rows => seq(cols, j requires 0 <= j < cols => a[i][j] - b[i][j]))
  }

  /** Every entry divided by the scalar `d` (nalgebra's `matrix / scalar`). */
  function Div(m: Matrix, rows: nat, cols: nat, d: real): (r: Matrix)
    requires IsMatrix(m, rows, cols) && d != 0.0
    ensures IsMatrix(r, rows, cols)
    ensures forall i, j :: 0 <= i < rows && 0 <= j < cols ==> r[i][j] == m[i][j] / d
  {
    seq(rows, i requires 0 <= i < rows => seq(cols, j requires 0 <= j < cols => m[i][j] / d))
  }

  predicate AllShaped(ms: seq<Matrix>, rows: nat, cols: nat)
  {
    forall k :: 0 <= k < |ms| ==> IsMatrix(ms[k], rows, cols)
  }

  /** `iter().reduce(|a, b| a + b)` over a non-empty sequence of equally shaped matrices. */
  function SumAll(ms: seq<Matrix>, rows: nat, cols: nat): (s: Matrix)
    requires |ms| > 0 && AllShaped(ms, rows, cols)
    ensures IsMatrix(s, rows, cols)
    decreases |ms|
  {
    if |ms| == 1 then ms[0]
    else Add(SumAll(ms[..|ms| - 1], rows, cols), ms[|ms| - 1], rows, cols)
  }

  /** The entry at (i, j) summed over all matrices of the sequence. */
  function EntrySum(ms: seq<Matrix>, rows: nat, cols: nat, i: nat, j: nat): real
    requires AllShaped(ms, rows, cols) && i < rows && j < cols
    decreases |ms|
  {
    if ms == [] then 0.0
    else EntrySum(ms[..|ms| - 1], rows, cols, i, j) + ms[|ms| - 1][i][j]
  }

  /** Adding the matrices up adds up every entry separately. */
  lemma {:induction false} SumAllAt(ms: seq<Matrix>, rows: nat, cols: nat, i: nat, j: nat)
    requires |ms| > 0 && AllShaped(ms, rows, cols) && i < rows && j < cols
    ensures SumAll(ms, rows, cols)[i][j] == EntrySum(ms, rows, cols, i, j)
    decreases |ms|
  {
    if |ms| == 1 {
      assert ms[..0] == [];
    } else {
      SumAllAt(ms[..|ms| - 1], rows, cols, i, j);
    }
  }

  /** `iter().reduce(f32::max)` over a non-empty sequence: the largest element. */
  function SeqMax(s: seq<real>): (m: real)
    requires |s| > 0
    ensures forall k :: 0 <= k < |s| ==> s[k] <= m
    ensures exists k :: 0 <= k < |s| && s[k] == m
    decreases |s|
  {
    if |s| == 1 then s[0]
    else
      var rest := SeqMax(s[..|s| - 1]);
      assert forall k :: 0 <= k < |s| - 1 ==> s[..|s| - 1][k] == s[k];
      Max(rest, s[|s| - 1])
  }

  /** A value that bounds every element and is one of them is the maximum. */
  lemma SeqMaxUnique(s: seq<real>, m: real)
    requires |s| > 0
    requires forall k :: 0 <= k < |s| ==> s[k] <= m
    requires exists k :: 0 <= k < |s| && s[k] == m
    ensures SeqMax(s) == m
  {
  }

  /**
   * `iter().reduce(f32::max)` over every entry of a matrix: None exactly when
   * the matrix has no entries, otherwise its largest entry.
   */
  function MaxEntry(m: Matrix): (r: Option<real>)
    ensures r.None? <==> forall i :: 0 <= i < |m| ==> m[i] == []
    ensures r.Some? ==> forall i, j :: 0 <= i < |m| && 0 <= j < |m[i]| ==> m[i][j] <= r.value
    ensures r.Some? ==> exists i, j :: 0 <= i < |m| && 0 <= j < |m[i]| && m[i][j] == r.value
    decreases |m|
  {
    if m == [] then None
    else
      var rest := MaxEntry(m[..|m| - 1]);
      var last := m[|m| - 1];
      assert forall i :: 0 <= i < |m| - 1 ==> m[..|m| - 1][i] == m[i];
      if last == [] then rest
      else
        var x := SeqMax(last);
        match rest
        case None => Some(x)
        case Some(y) => Some(Max(y, x))
  }
}
