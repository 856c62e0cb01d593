/**
 * The frame-to-spectrum reduction (`SpectrumCalculator::process_window`):
 * an RGB strip of `rows x width` pixels becomes a 3 x width matrix whose
 * entry (c, j) is the sum of channel c over column j, divided by rows * 255 * 3.
 */
module SpectrumCalculator {
  import opened Matrix

  type Byte = x: int | 0 <= x < 256

  datatype Rgb = Rgb(r: Byte, g: Byte, b: Byte)
  {
    function Channel(c: nat): Byte
      requires c < 3
    {
      if c == 0 then r else if c == 1 then g else b
    }
  }

  /** An `ImageBuffer<Rgb<u8>>`: `width` columns and one pixel sequence per row. */
  datatype Image = Image(width: nat, rows: seq<seq<Rgb>>)
  {
    predicate WellFormed()
    {
      forall y :: 0 <= y < |rows| ==> |rows[y]| == width
    }

    function Height(): nat
    {
      |rows|
    }
  }

  /** One pixel row as a 3 x width matrix: column j holds the channels of pixel j. */
  function RowMatrix(row: seq<Rgb>): (m: Matrix)
    ensures IsMatrix(m, 3, |row|)
  {
    seq(3, c requires 0 <= c < 3 => seq(|row|, j requires 0 <= j < |row| => row[j].Channel(c) as real))
  }

  function RowMatrices(window: Image): (ms: seq<Matrix>)
    requires window.WellFormed()
    ensures |ms| == window.Height() && AllShaped(ms, 3, window.width)
  {
    seq(window.Height(), y requires 0 <= y < window.Height() => RowMatrix(window.rows[y]))
  }

  function ProcessWindow(window: Image): Matrix
    requires window.WellFormed()
  {
    var rows := window.Height();
    var maxValue := rows * 255 * 3;
    if rows == 0 then Zeros(3, window.width)
    else Div(SumAll(RowMatrices(window), 3, window.width), 3, window.width, maxValue as real)
  }

  /** Channel c summed over the first `n` rows at column j. */
  function ChannelTotal(window: Image, n: nat, c: nat, j: nat): real
    requires window.WellFormed() && n <= window.Height() && c < 3 && j < window.width
  {
    if n == 0 then 0.0
    else ChannelTotal(window, n - 1, c, j) + window.rows[n - 1][j].Channel(c) as real
  }

  lemma {:induction false} ChannelTotalBounds(window: Image, n: nat, c: nat, j: nat)
    requires window.WellFormed() && n <= window.Height() && c < 3 && j < window.width
    ensures 0.0 <= ChannelTotal(window, n, c, j) <= 255.0 * n as real
  {
    if n > 0 {
      ChannelTotalBounds(window, n - 1, c, j);
    }
  }

  lemma {:induction false} RowMatricesSum(window: Image, n: nat, c: nat, j: nat)
    requires window.WellFormed() && n <= window.Height() && c < 3 && j < window.width
    ensures EntrySum(RowMatrices(window)[..n], 3, window.width, c, j) == ChannelTotal(window, n, c, j)
  {
    if n > 0 {
      var ms := RowMatrices(window);
      assert ms[..n][..n - 1] == ms[..n - 1];
      RowMatricesSum(window, n - 1, c, j);
    }
  }

  /**
   * The reduced window has 3 rows of `width` columns; each entry is the
   * channel's column total over all rows divided by rows * 255 * 3, and so
   * lies in [0, 1/3]. A window without rows yields zeros.
   */
  lemma ProcessWindowSpec(window: Image, c: nat, j: nat)
    requires window.WellFormed() && c < 3 && j < window.width
    ensures IsMatrix(ProcessWindow(window), 3, window.width)
    ensures window.Height() == 0 ==> ProcessWindow(window)[c][j] == 0.0
    ensures window.Height() > 0 ==>
      ProcessWindow(window)[c][j]
      == ChannelTotal(window, window.Height(), c, j) / (window.Height() * 255 * 3) as real
    ensures 0.0 <= ProcessWindow(window)[c][j] <= 1.0 / 3.0
  {
    var rows := window.Height();
    if rows > 0 {
      var ms := RowMatrices(window);
      SumAllAt(ms, 3, window.width, c, j);
      assert ms[..rows] == ms;
      RowMatricesSum(window, rows, c, j);
      ChannelTotalBounds(window, rows, c, j);
      NormalisedBound(ChannelTotal(window, rows, c, j), rows);
    }
  }

  lemma NormalisedBound(t: real, rows: nat)
    requires rows > 0 && 0.0 <= t <= 255.0 * rows as real
    ensures 0.0 <= t / (rows * 255 * 3) as real <= 1.0 / 3.0
  {
    var d := (rows * 255 * 3) as real;
    assert d == 3.0 * (255.0 * rows as real);
    assert t / d <= (255.0 * rows as real) / d;
  }
}
