/**
 * The texture (a read-only Buff loaded once by the Sketch constructor) and the
 * bilinear sampler nested in drawTriangle (bilinear_text).
 */
module Textures {
  import opened Colors

  /** texels[x][y] is the colour of texel (x, y). */
  datatype Texture = Texture(width: nat, height: nat, texels: seq<seq<Color>>)
  {
    predicate Valid()
    {
      && width >= 1 && height >= 1
      && |texels| == width
      && (forall x :: 0 <= x < width ==> |texels[x]| == height)
    }

    predicate UnitTexels()
      requires Valid()
    {
      forall x, y :: 0 <= x < width && 0 <= y < height ==> UnitColor(texels[x][y])
    }
  }

  /** queryTextureBuffPoint(texture, x, y).getColor() (Sketch.py:229-246). */
  function Texel(tex: Texture, x: int, y: int): Color
    requires tex.Valid()
    requires 0 <= x < tex.width && 0 <= y < tex.height
  {
    tex.texels[x][y]
  }

  /** max(0, min(n - 1, i)): an index forced into [0, n - 1]; indices already inside are kept. */
  function Clamp(i: int, n: int): (r: int)
    requires n >= 1
    ensures 0 <= r < n
    ensures 0 <= i < n ==> r == i
    ensures i < 0 ==> r == 0
    ensures i >= n ==> r == n - 1
  {
    var m := if n - 1 < i then n - 1 else i;
    if 0 < m then m else 0
  }

  /** The four clamped texel indices and the two blend factors bilinear_text uses at (u, v). */
  datatype Corners = Corners(u0: int, u1: int, v0: int, v1: int, s: real, t: real)

  /**
   * Sketch.py:398-409.  The indices come out inside the texture; and either a blend
   * factor lies in [0, 1] or the two indices it blends between coincide.
   */
  function CornersAt(tex: Texture, u: real, v: real): (k: Corners)
    requires tex.Valid()
    ensures 0 <= k.u0 < tex.width && 0 <= k.u1 < tex.width
    ensures 0 <= k.v0 < tex.height && 0 <= k.v1 < tex.height
    ensures InUnit(k.s) || k.u0 == k.u1
    ensures InUnit(k.t) || k.v0 == k.v1
  {
    var u0 := Clamp(u.Floor, tex.width);
    var u1 := Clamp(u.Floor + 1, tex.width);
    var v0 := Clamp(v.Floor, tex.height);
    var v1 := Clamp(v.Floor + 1, tex.height);
    Corners(u0, u1, v0, v1, u - u0 as real, v - v0 as real)
  }

  /** bilinear_text (Sketch.py:396-420): blend horizontally, then vertically. */
  function Bilinear(tex: Texture, u: real, v: real): Color
    requires tex.Valid()
  {
    var k := CornersAt(tex, u, v);
    var c00 := Texel(tex, k.u0, k.v0);
    var c10 := Texel(tex, k.u1, k.v0);
    var c01 := Texel(tex, k.u0, k.v1);
    var c11 := Texel(tex, k.u1, k.v1);
    LinterpColor(LinterpColor(c00, c10, k.s), LinterpColor(c01, c11, k.s), k.t)
  }

  /** At integer in-range coordinates the sampler returns exactly that texel. */
  lemma BilinearAtTexel(tex: Texture, x: int, y: int)
    requires tex.Valid()
    requires 0 <= x < tex.width && 0 <= y < tex.height
    ensures Bilinear(tex, x as real, y as real) == Texel(tex, x, y)
  {
    var k := CornersAt(tex, x as real, y as real);
    assert k.u0 == x && k.v0 == y && k.s == 0.0 && k.t == 0.0;
  }

  /** Every sample of a texture whose texels are unit colours is a unit colour, wherever it is taken. */
  lemma BilinearUnit(tex: Texture, u: real, v: real)
    requires tex.Valid() && tex.UnitTexels()
    ensures UnitColor(Bilinear(tex, u, v))
  {
    var k := CornersAt(tex, u, v);
    var c0 := LinterpColor(Texel(tex, k.u0, k.v0), Texel(tex, k.u1, k.v0), k.s);
    var c1 := LinterpColor(Texel(tex, k.u0, k.v1), Texel(tex, k.u1, k.v1), k.s);
    assert UnitColor(c0) && UnitColor(c1);
  }
}
