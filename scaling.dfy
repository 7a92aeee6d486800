/** The proportion scaler `_scale` and its inverse. */
module Scaling {

  predicate IsProportion(x: real) {
    0.0 <= x <= 1.0
  }

  /**
   * Maps a proportion linearly onto [lo, hi]. The source asserts both
   * preconditions before computing.
   */
  function Scale(x: real, lo: real, hi: real): (r: real)
    requires IsProportion(x)
    requires lo <= hi
    ensures lo <= r <= hi
  {
    var w := hi - lo;
    assert 0.0 <= x * w <= w by { ProductBounds(x, w); }
    x * w + lo
  }

  /** The proportion that `Scale` maps to `y`; 0 for a degenerate range. */
  function Unscale(y: real, lo: real, hi: real): (x: real)
    requires lo <= y <= hi
    ensures IsProportion(x)
    ensures Scale(x, lo, hi) == y
  {
    if lo == hi then 0.0
    else
      var x := (y - lo) / (hi - lo);
      assert x * (hi - lo) == y - lo;
      assert 0.0 <= x && x <= 1.0 by { QuotientBounds(y - lo, hi - lo); }
      x
  }

  lemma ProductBounds(x: real, w: real)
    requires IsProportion(x) && 0.0 <= w
    ensures 0.0 <= x * w <= w
  {
    NonNegativeProduct(x, w);
    NonNegativeProduct(1.0 - x, w);
    assert (1.0 - x) * w == w - x * w;
  }

  lemma NonNegativeProduct(a: real, b: real)
    requires 0.0 <= a && 0.0 <= b
    ensures 0.0 <= a * b
  {
  }

  lemma QuotientBounds(a: real, b: real)
    requires 0.0 <= a <= b && 0.0 < b
    ensures 0.0 <= a / b <= 1.0
  {
    assert a / b * b == a;
  }

  lemma ScaleEndpoints(lo: real, hi: real)
    requires lo <= hi
    ensures Scale(0.0, lo, hi) == lo
    ensures Scale(1.0, lo, hi) == hi
  {
  }

  /** A larger proportion never yields a smaller value. */
  lemma ScaleMonotone(x: real, y: real, lo: real, hi: real)
    requires IsProportion(x) && IsProportion(y) && x <= y
    requires lo <= hi
    ensures Scale(x, lo, hi) <= Scale(y, lo, hi)
  {
    NonNegativeProduct(y - x, hi - lo);
    assert Scale(y, lo, hi) - Scale(x, lo, hi) == (y - x) * (hi - lo);
  }

  /** On a non-degenerate range `Scale` is injective: `Unscale` undoes it. */
  lemma UnscaleScale(x: real, lo: real, hi: real)
    requires IsProportion(x)
    requires lo < hi
    ensures Unscale(Scale(x, lo, hi), lo, hi) == x
  {
    var y := Scale(x, lo, hi);
    assert y - lo == x * (hi - lo);
    assert (y - lo) / (hi - lo) == x * (hi - lo) / (hi - lo);
    assert x * (hi - lo) / (hi - lo) == x;
  }
}
