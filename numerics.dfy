/** The arithmetic of the overlay: Python's `round` on a number, and the
    map from normalised image coordinates (origin bottom-left) to pixel
    coordinates (origin top-left). Numbers are exact reals; the rounding of
    IEEE doubles is not modelled. */
module Numerics {

  function Abs(x: real): real {
    if x < 0.0 then -x else x
  }

  /** Python's `round(x)`: the nearest integer, ties to the even one. */
  function RoundHalfEven(x: real): (n: int)
    ensures Abs(x - n as real) <= 0.5
    ensures Abs(x - n as real) == 0.5 ==> n % 2 == 0
  {
    var f := x.Floor;
    var d := x - f as real;
    if d < 0.5 then f
    else if d > 0.5 then f + 1
    else if f % 2 == 0 then f
    else f + 1
  }

  /** The two properties of `RoundHalfEven` determine it: no other integer
      is as close, or as close and even. */
  lemma RoundHalfEvenUnique(x: real, m: int)
    requires Abs(x - m as real) <= 0.5
    requires Abs(x - m as real) == 0.5 ==> m % 2 == 0
    ensures m == RoundHalfEven(x)
  {
  }

  /** No integer is nearer to `x` than `RoundHalfEven(x)`. */
  lemma RoundHalfEvenNearest(x: real, m: int)
    ensures Abs(x - RoundHalfEven(x) as real) <= Abs(x - m as real)
  {
    var n := RoundHalfEven(x);
    if m < n {
      assert m as real <= n as real - 1.0;
    } else if n < m {
      assert n as real + 1.0 <= m as real;
    }
  }

  /** The threshold as a whole percentage, `int(round(cutoff * 100))`. */
  function CutoffPercent(cutoff: real): (pct: int)
    ensures Abs(cutoff * 100.0 - pct as real) <= 0.5
    ensures Abs(cutoff * 100.0 - pct as real) == 0.5 ==> pct % 2 == 0
  {
    RoundHalfEven(cutoff * 100.0)
  }

  /** Normalised to pixel coordinates in a frame of `w` by `h`, flipping Y:
      the column is the fraction `xNorm` of the width, and the row lies
      `yNorm * h` above the bottom edge. */
  function ToPixels(xNorm: real, yNorm: real, w: real, h: real): (p: (real, real))
    ensures w != 0.0 ==> p.0 / w == xNorm
    ensures h - p.1 == yNorm * h
  {
    (xNorm * w, (1.0 - yNorm) * h)
  }

  /** Pixel to normalised coordinates, the inverse of `ToPixels`. */
  function FromPixels(xPx: real, yPx: real, w: real, h: real): (real, real)
    requires w != 0.0 && h != 0.0
  {
    (xPx / w, 1.0 - yPx / h)
  }

  /** In a frame of non-zero size, pixels map back to the normalised
      position they came from. */
  lemma PixelsRoundTrip(xNorm: real, yNorm: real, w: real, h: real)
    requires w != 0.0 && h != 0.0
    ensures var p := ToPixels(xNorm, yNorm, w, h);
            FromPixels(p.0, p.1, w, h) == (xNorm, yNorm)
  {
    var down := 1.0 - yNorm;
    var p := ToPixels(xNorm, yNorm, w, h);
    assert p == (xNorm * w, down * h);
    assert xNorm * w / w == xNorm;
    assert down * h / h == down;
    assert FromPixels(p.0, p.1, w, h) == (xNorm * w / w, 1.0 - down * h / h);
  }

  /** ... and normalised coordinates map back to the pixels they came from. */
  lemma NormalisedRoundTrip(xPx: real, yPx: real, w: real, h: real)
    requires w != 0.0 && h != 0.0
    ensures var n := FromPixels(xPx, yPx, w, h);
            ToPixels(n.0, n.1, w, h) == (xPx, yPx)
  {
    var q := yPx / h;
    var n := FromPixels(xPx, yPx, w, h);
    assert n == (xPx / w, 1.0 - q);
    assert xPx / w * w == xPx;
    assert q * h == yPx;
    var back := ToPixels(n.0, n.1, w, h);
    assert back.0 == n.0 * w == xPx / w * w;
    assert 1.0 - n.1 == q;
    assert back.1 == q * h;
    assert back.0 == xPx && back.1 == yPx;
  }

  /** A normalised position inside the unit square lands inside the frame;
      the bottom edge (y = 0) becomes the last pixel row (h) and the top
      edge (y = 1) the first (0). */
  lemma PixelsInsideFrame(xNorm: real, yNorm: real, w: real, h: real)
    requires 0.0 <= xNorm <= 1.0 && 0.0 <= yNorm <= 1.0
    requires 0.0 <= w && 0.0 <= h
    ensures var p := ToPixels(xNorm, yNorm, w, h);
            0.0 <= p.0 <= w && 0.0 <= p.1 <= h
    ensures ToPixels(xNorm, 0.0, w, h).1 == h && ToPixels(xNorm, 1.0, w, h).1 == 0.0
  {
    assert 0.0 <= xNorm * w <= 1.0 * w;
    assert 0.0 <= (1.0 - yNorm) * h <= 1.0 * h;
  }

  /** The Y axis is reversed: a higher normalised position is a smaller
      pixel row. */
  lemma PixelsFlipY(yLow: real, yHigh: real, xNorm: real, w: real, h: real)
    requires yLow < yHigh && 0.0 < h
    ensures ToPixels(xNorm, yHigh, w, h).1 < ToPixels(xNorm, yLow, w, h).1
  {
  }

  /** (0.5, 0.25) in a 1000 by 500 frame is pixel (500, 375). */
  lemma PixelsExample()
    ensures ToPixels(0.5, 0.25, 1000.0, 500.0) == (500.0, 375.0)
  {
  }
}
