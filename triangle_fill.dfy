/**
 * The drawing methods of drawTriangle: the column loop, the row loop, the two
 * flat fills and the split, each proved to leave the buffer as drawing the
 * points of the matching specification in order would.
 */
module TriangleFill {
  import opened Wrappers
  import opened Colors
  import opened Canvas
  import opened Textures
  import opened Triangle

  /**
   * The column loop of one row (Sketch.py:465-479, 513-525): draws the columns
   * between the crossings left to right.
   */
  method FillSpan(buff: array2<Rgb>, sh: Shading, s: Span, y: int)
    requires sh.Valid() && SpanInBuffer(buff, sh, s, y)
    modifies buff
    ensures forall x', y' :: InBuffer(buff, x', y') ==>
              buff[x', y'] == PixelAfter(SpanPixels(sh, s, y), x', y', old(buff[x', y']))
  {
    var xL := Ceil(s.xLeft);
    var xR := s.xRight.Floor;
    var span := MaxR(1.0, s.xRight - s.xLeft);
    ghost var px := SpanPixels(sh, s, y);
    ghost var done: seq<Point> := [];
    var x := xL;
    while x <= xR
      invariant xL <= xR ==> xL <= x <= xR + 1
      invariant xL > xR ==> x == xL
      invariant done == px[..x - xL]
      invariant forall x', y' :: InBuffer(buff, x', y') ==> buff[x', y'] == PixelAfter(done, x', y', old(buff[x', y']))
    {
      var alpha := (x as real - s.xLeft) / span;
      var cDraw: Color;
      if sh.doTexture && sh.texture.Some? {
        var tex := sh.texture.value;
        var uNorm := Linterp(s.uvLeft.u, s.uvRight.u, alpha);
        var vNorm := Linterp(s.uvLeft.v, s.uvRight.v, alpha);
        cDraw := Bilinear(tex, ToTexels(uNorm, tex.width), ToTexels(vNorm, tex.height));
        assert cDraw == PixelColor(sh, s, x);
      } else if sh.doSmooth {
        cDraw := LinterpColor(s.cLeft, s.cRight, alpha);
        assert cDraw == PixelColor(sh, s, x);
      } else {
        cDraw := sh.flat;
        assert cDraw == PixelColor(sh, s, x);
      }
      assert alpha == Alpha(s, x);
      assert cDraw == PixelColor(sh, s, x);
      var pt := Point(x, y, cDraw);
      assert pt == px[x - xL];
      assert px[..x - xL + 1] == px[..x - xL] + [pt];
      label Before:
      DrawPoint(buff, pt);
      forall x', y' | InBuffer(buff, x', y')
        ensures buff[x', y'] == PixelAfter(done + [pt], x', y', old(buff[x', y']))
      {
        PaintStep(done, pt, x', y', old@Before(buff[x', y']), old(buff[x', y']), buff[x', y']);
      }
      done := done + [pt];
      x := x + 1;
    }
    assert done == px;
  }

  /**
   * fill_flat_bottom and fill_flat_top (Sketch.py:434-525): nothing for a half of
   * height 0, otherwise the rows v0.y .. v2.y top to bottom, each between the
   * crossings of the half's two sides.
   */
  method FillFlat(buff: array2<Rgb>, sh: Shading, kind: Flat, h: Half)
    requires sh.Valid() && HalfShape(kind, h) && BoxInBuffer(buff, HalfBox(h))
    modifies buff
    ensures forall x, y :: InBuffer(buff, x, y) ==>
              buff[x, y] == PixelAfter(FillPixels(sh, kind, h), x, y, old(buff[x, y]))
  {
    var dy := h.v2.y - h.v0.y;
    if dy == 0 {
      return;
    }
    var spans := RowSpans(sh, kind, h);
    ghost var base := Snapshot(buff);
    SnapshotPainted(buff);
    SpansInBuffer(buff, sh, kind, h);
    FillRows(buff, sh, spans, h.v0.y, base);
    FillEnd(buff, sh, kind, h, base);
  }

  /** The row loop of fill_flat_bottom / fill_flat_top: row y0 + i between the crossings spans[i]. */
  method FillRows(buff: array2<Rgb>, sh: Shading, spans: seq<Span>, y0: int, ghost base: seq<seq<Rgb>>)
    requires sh.Valid()
    requires forall i :: 0 <= i < |spans| ==> SpanInBuffer(buff, sh, spans[i], y0 + i)
    requires Painted(buff, base, [])
    modifies buff
    ensures Painted(buff, base, SpanRows(sh, spans, y0, |spans|))
  {
    for i := 0 to |spans|
      invariant Painted(buff, base, SpanRows(sh, spans, y0, i))
    {
      FillRow(buff, sh, spans, y0, i, base);
    }
  }

  /** One row: the columns between the row's crossings, drawn over what the rows above left. */
  method FillRow(buff: array2<Rgb>, sh: Shading, spans: seq<Span>, y0: int, i: int, ghost base: seq<seq<Rgb>>)
    requires sh.Valid() && 0 <= i < |spans| && SpanInBuffer(buff, sh, spans[i], y0 + i)
    requires Painted(buff, base, SpanRows(sh, spans, y0, i))
    modifies buff
    ensures Painted(buff, base, SpanRows(sh, spans, y0, i + 1))
  {
    ghost var done := SpanRows(sh, spans, y0, i);
    ghost var row := SpanPixels(sh, spans[i], y0 + i);
    PaintedPixels(buff, base, done);
    label Before:
    FillSpan(buff, sh, spans[i], y0 + i);
    forall x', y' | InBuffer(buff, x', y')
      ensures buff[x', y'] == PixelAfter(done + row, x', y', base[x'][y'])
    {
      PaintAfter(done, row, x', y', base[x'][y'], old@Before(buff[x', y']), buff[x', y']);
    }
    PixelsPainted(buff, base, done + row);
  }

  /**
   * drawTriangle (Sketch.py:335-547) with the sketch's texture passed in.  The three
   * vertices lie in the buffer (the source indexes its numpy buffer unchecked);
   * drawing the points of TrianglePixels in order leaves there.
   */
  method DrawTriangle(buff: array2<Rgb>, p1: Point, p2: Point, p3: Point, doSmooth: bool, doTexture: bool,
                      texture: Option<Texture>)
    requires texture.Some? ==> texture.value.Valid()
    requires InBuffer(buff, p1.x, p1.y) && InBuffer(buff, p2.x, p2.y) && InBuffer(buff, p3.x, p3.y)
    modifies buff
    ensures forall x, y :: InBuffer(buff, x, y) ==>
              buff[x, y] == PixelAfter(TrianglePixels(p1, p2, p3, doSmooth, doTexture, texture), x, y, old(buff[x, y]))
  {
    var t := SortByY(p1, p2, p3);
    var box := BoundingBox(p1, p2, p3);
    var uvTop, uvMid, uvBot := VertUv(box, t.top), VertUv(box, t.mid), VertUv(box, t.bot);
    var sh := Shading(doSmooth, doTexture, texture, p1.color);
    PartsWithin(p1, p2, p3, sh);
    TriangleHalves(p1, p2, p3, doSmooth, doTexture, texture);
    DrawHalves(buff, sh, t, uvTop, uvMid, uvBot, box);
  }

  /**
   * The body of drawTriangle once the vertices are sorted (Sketch.py:528-547): a
   * level bottom or a level top is one half; otherwise the long side is split on
   * the middle row and the upper half is filled before the lower one.
   */
  method DrawHalves(buff: array2<Rgb>, sh: Shading, t: Trio, uvTop: Uv, uvMid: Uv, uvBot: Uv, box: Box)
    requires sh.Valid() && t.top.y <= t.mid.y <= t.bot.y && BoxInBuffer(buff, box)
    requires var parts := Halves(sh, t, uvTop, uvMid, uvBot);
             forall i :: 0 <= i < |parts| ==>
               HalfShape(parts[i].kind, parts[i].half) && BoxWithin(HalfBox(parts[i].half), box)
    modifies buff
    ensures forall x, y :: InBuffer(buff, x, y) ==>
              buff[x, y] == PixelAfter(PartsPixels(sh, Halves(sh, t, uvTop, uvMid, uvBot)), x, y, old(buff[x, y]))
  {
    ghost var parts := Halves(sh, t, uvTop, uvMid, uvBot);
    WithinBuffer(buff, HalfBox(parts[0].half), box);
    if |parts| == 2 {
      WithinBuffer(buff, HalfBox(parts[1].half), box);
    }
    if t.mid.y == t.bot.y {
      FillFlat(buff, sh, FlatBottom, Half(t.top, t.mid, t.bot, uvTop, uvMid, uvBot));
    } else if t.top.y == t.mid.y {
      FillFlat(buff, sh, FlatTop, Half(t.top, t.mid, t.bot, uvTop, uvMid, uvBot));
    } else {
      var split := SplitPoint(sh, t);
      var uvSplit := SplitUv(uvTop, uvBot, SplitT(t));
      var upper := Half(t.top, t.mid, split, uvTop, uvMid, uvSplit);
      var lower := Half(t.mid, split, t.bot, uvMid, uvSplit, uvBot);
      assert parts == [Part(FlatBottom, upper), Part(FlatTop, lower)];
      FillBoth(buff, sh, upper, lower);
    }
  }

  /** fill_flat_bottom on the upper half, then fill_flat_top on the lower one. */
  method FillBoth(buff: array2<Rgb>, sh: Shading, upper: Half, lower: Half)
    requires sh.Valid() && HalfShape(FlatBottom, upper) && HalfShape(FlatTop, lower)
    requires BoxInBuffer(buff, HalfBox(upper)) && BoxInBuffer(buff, HalfBox(lower))
    modifies buff
    ensures forall x, y :: InBuffer(buff, x, y) ==>
              buff[x, y] == PixelAfter(FillPixels(sh, FlatBottom, upper) + FillPixels(sh, FlatTop, lower),
                                       x, y, old(buff[x, y]))
  {
    FillFlat(buff, sh, FlatBottom, upper);
    label Between:
    FillFlat(buff, sh, FlatTop, lower);
    forall x, y | InBuffer(buff, x, y)
      ensures buff[x, y] == PixelAfter(FillPixels(sh, FlatBottom, upper) + FillPixels(sh, FlatTop, lower),
                                       x, y, old(buff[x, y]))
    {
      PixelAfterAppend(FillPixels(sh, FlatBottom, upper), FillPixels(sh, FlatTop, lower), x, y, old(buff[x, y]));
    }
  }
}
