/** Colours with real channels and the affine interpolation used throughout the rasteriser. */
module Colors {

  /** ColorType: three channels, nominally in [0, 1]. */
  datatype Color = Color(r: real, g: real, b: real)

  predicate InUnit(x: real) { 0.0 <= x <= 1.0 }

  predicate UnitColor(c: Color) { InUnit(c.r) && InUnit(c.g) && InUnit(c.b) }

  function MinR(a: real, b: real): real { if a <= b then a else b }

  function MaxR(a: real, b: real): real { if a <= b then b else a }

  /** A non-zero quantity divided by itself is one. */
  lemma DivSelf(n: real)
    requires n != 0.0
    ensures n / n == 1.0
  {
  }

  /** A share of a positive whole lies in [0, 1]. */
  lemma FracUnit(n: real, d: real)
    requires 0.0 <= n <= d && d > 0.0
    ensures InUnit(n / d)
  {
    DivSelf(d);
    assert n / d <= d / d;
  }

  lemma ScaleBetween(t: real, d: real)
    requires 0.0 <= t <= 1.0
    ensures MinR(0.0, d) <= t * d <= MaxR(0.0, d)
  {
    if d >= 0.0 {
      assert t * d <= 1.0 * d;
    } else {
      assert t * (-d) <= 1.0 * (-d);
    }
  }

  /** linterp(p0, p1, t) = p0 + t * (p1 - p0): stays between its end points for t in [0, 1]. */
  function Linterp(p0: real, p1: real, t: real): (r: real)
    ensures 0.0 <= t <= 1.0 ==> MinR(p0, p1) <= r <= MaxR(p0, p1)
    ensures t == 0.0 ==> r == p0
    ensures t == 1.0 ==> r == p1
    ensures p0 == p1 ==> r == p0
  {
    if 0.0 <= t <= 1.0 then ScaleBetween(t, p1 - p0); p0 + t * (p1 - p0)
    else p0 + t * (p1 - p0)
  }

  /** linterp_color: channel-wise Linterp; a blend of two unit colours at t in [0, 1] is a unit colour. */
  function LinterpColor(c0: Color, c1: Color, t: real): (c: Color)
    ensures 0.0 <= t <= 1.0 && UnitColor(c0) && UnitColor(c1) ==> UnitColor(c)
    ensures t == 0.0 ==> c == c0
    ensures t == 1.0 ==> c == c1
    ensures c0 == c1 ==> c == c0
  {
    Color(Linterp(c0.r, c1.r, t), Linterp(c0.g, c1.g, t), Linterp(c0.b, c1.b, t))
  }
}
