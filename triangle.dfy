/**
 * drawTriangle (Sketch.py:335-547): scan-line fill of a triangle split into a
 * flat-bottom and a flat-top half at the middle vertex's row, with flat,
 * smooth (Gouraud) or texture-mapped colouring.
 */
module Triangle {
  import opened Wrappers
  import opened Colors
  import opened Canvas
  import opened Textures

  // ---------------------------------------------------------------------------
  // Vertex order

  /** The vertices ordered by row: top, middle, bottom. */
  datatype Trio = Trio(top: Point, mid: Point, bot: Point)

  /**
   * sorted([p1, p2, p3], key = y) (Sketch.py:371): ordered by row and a
   * rearrangement of the three inputs.
   */
  function SortByY(a: Point, b: Point, c: Point): (t: Trio)
    ensures t.top.y <= t.mid.y <= t.bot.y
    ensures multiset{t.top, t.mid, t.bot} == multiset{a, b, c}
  {
    var (x, y) := if b.y < a.y then (b, a) else (a, b);
    if c.y < x.y then Trio(c, x, y)
    else if c.y < y.y then Trio(x, c, y)
    else Trio(x, y, c)
  }

  /** Whether ps[j] goes before ps[i] in a stable sort by row. */
  predicate SortsBefore(ps: seq<Point>, i: int, j: int)
    requires 0 <= i < |ps| && 0 <= j < |ps|
  {
    ps[j].y < ps[i].y || (ps[j].y == ps[i].y && j < i)
  }

  /** The number of ps[0..n) that a stable sort by row puts before ps[i]: its place in the result. */
  function StableRank(ps: seq<Point>, i: int, n: nat): nat
    requires 0 <= i < |ps| && n <= |ps|
  {
    if n == 0 then 0
    else StableRank(ps, i, n - 1) + (if SortsBefore(ps, i, n - 1) then 1 else 0)
  }

  function TrioSeq(t: Trio): seq<Point> { [t.top, t.mid, t.bot] }

  /**
   * Python's sort is stable: each input lands at the place a stable sort gives it,
   * i.e. after every vertex on a smaller row and after every earlier vertex on
   * its own row.
   */
  lemma SortByYStable(a: Point, b: Point, c: Point)
    ensures var ps := [a, b, c];
            var ts := TrioSeq(SortByY(a, b, c));
            forall i :: 0 <= i < 3 ==> StableRank(ps, i, 3) < 3 && ts[StableRank(ps, i, 3)] == ps[i]
  {
    var ps := [a, b, c];
    var ts := TrioSeq(SortByY(a, b, c));
    var r0 := Rank3(ps, 0);
    var r1 := Rank3(ps, 1);
    var r2 := Rank3(ps, 2);
    assert r0 == (if b.y < a.y then 1 else 0) + (if c.y < a.y then 1 else 0);
    assert r1 == (if a.y <= b.y then 1 else 0) + (if c.y < b.y then 1 else 0);
    assert r2 == (if a.y <= c.y then 1 else 0) + (if b.y <= c.y then 1 else 0);
    assert ts[r0] == a && ts[r1] == b && ts[r2] == c;
  }

  /** The stable rank among three points, counted out. */
  lemma Rank3(ps: seq<Point>, i: int) returns (r: nat)
    requires |ps| == 3 && 0 <= i < 3
    ensures r == StableRank(ps, i, 3)
    ensures r == (if SortsBefore(ps, i, 0) then 1 else 0) + (if SortsBefore(ps, i, 1) then 1 else 0)
                 + (if SortsBefore(ps, i, 2) then 1 else 0)
  {
    assert StableRank(ps, i, 1) == (if SortsBefore(ps, i, 0) then 1 else 0);
    r := StableRank(ps, i, 3);
  }

  // ---------------------------------------------------------------------------
  // Bounding box and per-vertex texture coordinates

  datatype Box = Box(minX: int, maxX: int, minY: int, maxY: int)

  function Min3(a: int, b: int, c: int): int
  {
    if a <= b && a <= c then a else if b <= c then b else c
  }

  function Max3(a: int, b: int, c: int): int
  {
    if a >= b && a >= c then a else if b >= c then b else c
  }

  predicate InBox(b: Box, x: int, y: int)
  {
    b.minX <= x <= b.maxX && b.minY <= y <= b.maxY
  }

  /**
   * Sketch.py:374-377: the smallest box holding the three vertices; each bound is
   * attained by one of them.
   */
  function BoundingBox(p1: Point, p2: Point, p3: Point): (b: Box)
    ensures InBox(b, p1.x, p1.y) && InBox(b, p2.x, p2.y) && InBox(b, p3.x, p3.y)
    ensures b.minX in {p1.x, p2.x, p3.x} && b.maxX in {p1.x, p2.x, p3.x}
    ensures b.minY in {p1.y, p2.y, p3.y} && b.maxY in {p1.y, p2.y, p3.y}
  {
    Box(Min3(p1.x, p2.x, p3.x), Max3(p1.x, p2.x, p3.x), Min3(p1.y, p2.y, p3.y), Max3(p1.y, p2.y, p3.y))
  }

  /** max(1, n). */
  function AtLeastOne(n: int): (r: int)
    ensures r >= 1 && r >= n
    ensures n >= 1 ==> r == n
  {
    if n < 1 then 1 else n
  }

  /** Normalised texture coordinates. */
  datatype Uv = Uv(u: real, v: real)

  predicate UnitUv(uv: Uv) { InUnit(uv.u) && InUnit(uv.v) }

  /**
   * vert_uv (Sketch.py:423-427): a vertex's offset in the box over the box's size
   * (at least one).  Inside the box it lies in [0, 1] x [0, 1]; the box's low
   * corner maps to 0 and, on a side longer than zero, its high corner to 1.
   */
  function VertUv(b: Box, p: Point): (uv: Uv)
    ensures InBox(b, p.x, p.y) ==> UnitUv(uv)
    ensures p.x == b.minX ==> uv.u == 0.0
    ensures p.y == b.minY ==> uv.v == 0.0
    ensures p.x == b.maxX && b.minX < b.maxX ==> uv.u == 1.0
    ensures p.y == b.maxY && b.minY < b.maxY ==> uv.v == 1.0
  {
    var w := AtLeastOne(b.maxX - b.minX);
    var h := AtLeastOne(b.maxY - b.minY);
    DivSelf(w as real);
    DivSelf(h as real);
    Uv((p.x - b.minX) as real / w as real, (p.y - b.minY) as real / h as real)
  }

  // ---------------------------------------------------------------------------
  // Shading, edges and spans

  /**
   * The colouring switches of one drawTriangle call: doSmooth, doTexture, the
   * sketch's texture (None when it has none) and the flat colour, which is the
   * colour of the first vertex as passed in (p1), not of the top vertex.
   */
  datatype Shading = Shading(doSmooth: bool, doTexture: bool, texture: Option<Texture>, flat: Color)
  {
    predicate Valid() { texture.Some? ==> texture.value.Valid() }

    /** `doTexture and self.texture`: without a texture the fill falls back to the other modes. */
    predicate Textured() { doTexture && texture.Some? }
  }

  /** The two vertices and texture coordinates of one side, and the rows it spans: t = (y - from) / len. */
  datatype Edge = Edge(a: Point, b: Point, uvA: Uv, uvB: Uv, from: int, len: int)

  /** One half of the triangle: v0 on top, v2 at the bottom. */
  datatype Half = Half(v0: Point, v1: Point, v2: Point, uv0: Uv, uv1: Uv, uv2: Uv)

  datatype Flat = FlatBottom | FlatTop

  /** `n or 1`. */
  function OrOne(n: int): (r: int)
    ensures r != 0
    ensures n != 0 ==> r == n
  {
    if n == 0 then 1 else n
  }

  /**
   * The shape each fill assumes: the flat-bottom half has v1 and v2 on one row,
   * the flat-top half v0 and v1; v0 is never below v2.
   */
  predicate HalfShape(kind: Flat, h: Half)
  {
    h.v0.y <= h.v2.y &&
    match kind
    case FlatBottom => h.v1.y == h.v2.y
    case FlatTop => h.v0.y == h.v1.y
  }

  /** The half's height, dy (Sketch.py:436, 484). */
  function Height(h: Half): int { h.v2.y - h.v0.y }

  /**
   * The left and right sides each fill walks down: v0-v1 and v0-v2 for the
   * flat-bottom half (Sketch.py:441-445), v0-v2 and v1-v2 for the flat-top half
   * (Sketch.py:489-493).
   */
  function Edges(kind: Flat, h: Half): (Edge, Edge)
  {
    match kind
    case FlatBottom =>
      (Edge(h.v0, h.v1, h.uv0, h.uv1, h.v0.y, OrOne(h.v1.y - h.v0.y)),
       Edge(h.v0, h.v2, h.uv0, h.uv2, h.v0.y, Height(h)))
    case FlatTop =>
      (Edge(h.v0, h.v2, h.uv0, h.uv2, h.v0.y, Height(h)),
       Edge(h.v1, h.v2, h.uv1, h.uv2, h.v1.y, OrOne(h.v2.y - h.v1.y)))
  }

  /** How far down its side row y is. */
  function EdgeT(e: Edge, y: int): real
    requires e.len != 0
  {
    (y - e.from) as real / e.len as real
  }

  /** On the rows a side spans its parameter lies in [0, 1]. */
  lemma EdgeTUnit(e: Edge, y: int)
    requires e.len > 0 && e.from <= y <= e.from + e.len
    ensures InUnit(EdgeT(e, y))
  {
    assert (y - e.from) as real <= e.len as real;
  }

  /** The crossing of row y with both sides, their colours and texture coordinates. */
  datatype Span = Span(xLeft: real, xRight: real, cLeft: Color, cRight: Color, uvLeft: Uv, uvRight: Uv)

  /** Whether column x lies between the span's two crossings. */
  predicate Covers(s: Span, x: int) { s.xLeft <= x as real <= s.xRight }

  function EdgeX(e: Edge, t: real): real { Linterp(e.a.x as real, e.b.x as real, t) }

  /** `linterp_color(...) if doSmooth else p1.color`. */
  function EdgeColor(sh: Shading, e: Edge, t: real): Color
  {
    if sh.doSmooth then LinterpColor(e.a.color, e.b.color, t) else sh.flat
  }

  function EdgeUv(e: Edge, t: real): Uv
  {
    Uv(Linterp(e.uvA.u, e.uvB.u, t), Linterp(e.uvA.v, e.uvB.v, t))
  }

  function Swapped(s: Span): Span
  {
    Span(s.xRight, s.xLeft, s.cRight, s.cLeft, s.uvRight, s.uvLeft)
  }

  /**
   * Sketch.py:455-459: when the sides cross in the wrong order, their positions,
   * colours and texture coordinates are exchanged together.
   */
  function OrderSpan(s: Span): (r: Span)
    ensures r.xLeft <= r.xRight
    ensures s.xLeft <= s.xRight ==> r == s
    ensures s.xLeft > s.xRight ==> r == Swapped(s)
  {
    if s.xLeft > s.xRight then Swapped(s) else s
  }

  /** Row y of a half (Sketch.py:441-459, 489-507). */
  function RowSpan(sh: Shading, kind: Flat, h: Half, y: int): Span
    requires Height(h) != 0
  {
    var (l, r) := Edges(kind, h);
    var t0 := EdgeT(l, y);
    var t1 := EdgeT(r, y);
    OrderSpan(Span(EdgeX(l, t0), EdgeX(r, t1), EdgeColor(sh, l, t0), EdgeColor(sh, r, t1),
                   EdgeUv(l, t0), EdgeUv(r, t1)))
  }

  /**
   * alpha (Sketch.py:463, 466): the column's offset from the left crossing over the
   * span's width (at least one); in [0, 1] for every column between the crossings.
   */
  function Alpha(s: Span, x: int): (a: real)
    ensures s.xLeft <= x as real <= s.xRight ==> InUnit(a)
  {
    var width := MaxR(1.0, s.xRight - s.xLeft);
    var offset := x as real - s.xLeft;
    assert s.xLeft <= x as real <= s.xRight ==> InUnit(offset / width) by {
      if s.xLeft <= x as real <= s.xRight {
        FracUnit(offset, width);
      }
    }
    offset / width
  }

  /**
   * A normalised texture coordinate in texel units, u * (size - 1) (Sketch.py:472-473):
   * [0, 1] maps onto [0, size - 1].
   */
  function ToTexels(norm: real, size: int): (r: real)
    requires size >= 1
    ensures InUnit(norm) ==> 0.0 <= r <= (size - 1) as real
    ensures norm == 0.0 ==> r == 0.0
    ensures norm == 1.0 ==> r == (size - 1) as real
  {
    if InUnit(norm) then ScaleBetween(norm, (size - 1) as real); norm * (size - 1) as real
    else norm * (size - 1) as real
  }

  /** The colour of column x in a span (Sketch.py:467-478). */
  function PixelColor(sh: Shading, s: Span, x: int): Color
    requires sh.Valid()
  {
    var a := Alpha(s, x);
    if sh.Textured() then
      var tex := sh.texture.value;
      Bilinear(tex, ToTexels(Linterp(s.uvLeft.u, s.uvRight.u, a), tex.width),
               ToTexels(Linterp(s.uvLeft.v, s.uvRight.v, a), tex.height))
    else if sh.doSmooth then LinterpColor(s.cLeft, s.cRight, a)
    else sh.flat
  }

  /** The points one row draws: columns ceil(xLeft) .. floor(xRight), left to right. */
  function SpanPixels(sh: Shading, s: Span, y: int): seq<Point>
    requires sh.Valid()
  {
    var xL := Ceil(s.xLeft);
    var xR := s.xRight.Floor;
    if xL > xR then []
    else seq(xR - xL + 1, i requires 0 <= i => Point(xL + i, y, PixelColor(sh, s, xL + i)))
  }

  /**
   * A row draws exactly the columns lying between its two crossings, once each,
   * left to right, on row y.
   */
  lemma SpanCover(sh: Shading, s: Span, y: int)
    requires sh.Valid()
    ensures var px := SpanPixels(sh, s, y);
            && (forall k :: 0 <= k < |px| ==> px[k].x == Ceil(s.xLeft) + k && px[k].y == y)
            && (forall k :: 0 <= k < |px| ==> Covers(s, px[k].x))
            && (forall x :: Covers(s, x) ==>
                  0 <= x - Ceil(s.xLeft) < |px| && px[x - Ceil(s.xLeft)].x == x)
  {
    var px := SpanPixels(sh, s, y);
    var xL := Ceil(s.xLeft);
    forall x | Covers(s, x)
      ensures 0 <= x - xL < |px| && px[x - xL].x == x
    {
      assert xL <= x by {
        assert (xL - 1) as real < s.xLeft;
      }
      assert x <= s.xRight.Floor;
    }
  }

  // ---------------------------------------------------------------------------
  // The points of a fill

  /** The crossings of every row v0.y .. v2.y of a half, top to bottom. */
  function RowSpans(sh: Shading, kind: Flat, h: Half): seq<Span>
    requires Height(h) != 0
  {
    if Height(h) < 0 then [] else seq(Height(h) + 1, i => RowSpan(sh, kind, h, h.v0.y + i))
  }

  /** The first n rows of a run of spans, the first on row y0, top to bottom. */
  function SpanRows(sh: Shading, spans: seq<Span>, y0: int, n: nat): seq<Point>
    requires sh.Valid() && n <= |spans|
  {
    if n == 0 then [] else SpanRows(sh, spans, y0, n - 1) + SpanPixels(sh, spans[n - 1], y0 + n - 1)
  }

  /** fill_flat_bottom / fill_flat_top (Sketch.py:434-525): nothing for a half of height 0. */
  function FillPixels(sh: Shading, kind: Flat, h: Half): seq<Point>
    requires sh.Valid()
  {
    if Height(h) == 0 then []
    else var spans := RowSpans(sh, kind, h); SpanRows(sh, spans, h.v0.y, |spans|)
  }

  /** Every point of the first n rows is a point of one of those rows. */
  lemma {:induction false} SpanRowsMember(sh: Shading, spans: seq<Span>, y0: int, n: nat, k: int)
      returns (i: int, j: int)
    requires sh.Valid() && n <= |spans|
    requires 0 <= k < |SpanRows(sh, spans, y0, n)|
    ensures 0 <= i < n
    ensures var row := SpanPixels(sh, spans[i], y0 + i);
            0 <= j < |row| && SpanRows(sh, spans, y0, n)[k] == row[j]
  {
    var prev := SpanRows(sh, spans, y0, n - 1);
    if k < |prev| {
      i, j := SpanRowsMember(sh, spans, y0, n - 1, k);
    } else {
      i, j := n - 1, k - |prev|;
    }
  }

  /** Every point of a fill is a point of one of its rows. */
  lemma FillMember(sh: Shading, kind: Flat, h: Half, k: int) returns (y: int, j: int)
    requires sh.Valid() && 0 <= k < |FillPixels(sh, kind, h)|
    ensures Height(h) != 0 && h.v0.y <= y <= h.v2.y
    ensures var row := SpanPixels(sh, RowSpan(sh, kind, h, y), y);
            0 <= j < |row| && FillPixels(sh, kind, h)[k] == row[j]
  {
    var spans := RowSpans(sh, kind, h);
    var i;
    i, j := SpanRowsMember(sh, spans, h.v0.y, |spans|, k);
    y := h.v0.y + i;
    assert spans[i] == RowSpan(sh, kind, h, y);
  }

  // ---------------------------------------------------------------------------
  // The triangle

  /** The shading of one call: the flat colour is p1's. */
  function ShadingOf(p1: Point, doSmooth: bool, doTexture: bool, texture: Option<Texture>): Shading
  {
    Shading(doSmooth, doTexture, texture, p1.color)
  }

  /** Where the long side top-bot crosses the middle row (Sketch.py:536). */
  function SplitT(t: Trio): real
    requires t.top.y != t.bot.y
  {
    (t.mid.y - t.top.y) as real / (t.bot.y - t.top.y) as real
  }

  /**
   * v_split (Sketch.py:537-544): on the middle row, at the long side's crossing
   * truncated toward zero, with the long side's colour there (p1's colour
   * without smoothing).
   */
  function SplitPoint(sh: Shading, t: Trio): Point
    requires t.top.y != t.bot.y
  {
    var s := SplitT(t);
    Point(Trunc(Linterp(t.top.x as real, t.bot.x as real, s)), t.mid.y,
          if sh.doSmooth then LinterpColor(t.top.color, t.bot.color, s) else sh.flat)
  }

  /** The long side's texture coordinates at the split (Sketch.py:541-542). */
  function SplitUv(uvTop: Uv, uvBot: Uv, s: real): Uv
  {
    Uv(Linterp(uvTop.u, uvBot.u, s), Linterp(uvTop.v, uvBot.v, s))
  }

  /** The halves drawTriangle fills, in order (Sketch.py:528-547). */
  datatype Part = Part(kind: Flat, half: Half)

  /** The halves of the sorted vertices t, given their texture coordinates. */
  function Halves(sh: Shading, t: Trio, uvTop: Uv, uvMid: Uv, uvBot: Uv): seq<Part>
    requires t.top.y <= t.mid.y <= t.bot.y
  {
    if t.mid.y == t.bot.y then
      [Part(FlatBottom, Half(t.top, t.mid, t.bot, uvTop, uvMid, uvBot))]
    else if t.top.y == t.mid.y then
      [Part(FlatTop, Half(t.top, t.mid, t.bot, uvTop, uvMid, uvBot))]
    else
      var split := SplitPoint(sh, t);
      var uvSplit := SplitUv(uvTop, uvBot, SplitT(t));
      [Part(FlatBottom, Half(t.top, t.mid, split, uvTop, uvMid, uvSplit)),
       Part(FlatTop, Half(t.mid, split, t.bot, uvMid, uvSplit, uvBot))]
  }

  function Parts(p1: Point, p2: Point, p3: Point, sh: Shading): seq<Part>
  {
    var t := SortByY(p1, p2, p3);
    var box := BoundingBox(p1, p2, p3);
    Halves(sh, t, VertUv(box, t.top), VertUv(box, t.mid), VertUv(box, t.bot))
  }

  /** The points drawTriangle draws, in drawing order. */
  function TrianglePixels(p1: Point, p2: Point, p3: Point, doSmooth: bool, doTexture: bool,
                          texture: Option<Texture>): seq<Point>
    requires texture.Some? ==> texture.value.Valid()
  {
    var sh := ShadingOf(p1, doSmooth, doTexture, texture);
    PartsPixels(sh, Parts(p1, p2, p3, sh))
  }

  /** The points of one or two halves, filled in order. */
  function PartsPixels(sh: Shading, parts: seq<Part>): seq<Point>
    requires sh.Valid() && 1 <= |parts| <= 2
  {
    if |parts| == 1 then FillPixels(sh, parts[0].kind, parts[0].half)
    else FillPixels(sh, parts[0].kind, parts[0].half) + FillPixels(sh, parts[1].kind, parts[1].half)
  }

  // ---------------------------------------------------------------------------
  // Where the points fall

  /** The bounding box of a half's three vertices. */
  function HalfBox(h: Half): Box { BoundingBox(h.v0, h.v1, h.v2) }

  predicate BoxWithin(inner: Box, outer: Box)
  {
    outer.minX <= inner.minX && inner.maxX <= outer.maxX && outer.minY <= inner.minY && inner.maxY <= outer.maxY
  }

  /** A box inside a box that fits the buffer fits it too. */
  lemma WithinBuffer(buff: array2<Rgb>, inner: Box, outer: Box)
    requires inner.minX <= inner.maxX && inner.minY <= inner.maxY
    requires BoxWithin(inner, outer) && BoxInBuffer(buff, outer)
    ensures BoxInBuffer(buff, inner)
  {
  }

  /** On every row of a half both crossings lie between the half's leftmost and rightmost vertex. */
  lemma RowSpanInBox(sh: Shading, kind: Flat, h: Half, y: int)
    requires HalfShape(kind, h) && Height(h) > 0 && h.v0.y <= y <= h.v2.y
    ensures var s := RowSpan(sh, kind, h, y);
            HalfBox(h).minX as real <= s.xLeft && s.xRight <= HalfBox(h).maxX as real
  {
    var (l, r) := Edges(kind, h);
    EdgeTUnit(l, y);
    EdgeTUnit(r, y);
  }

  /** Every point a row of a half draws lies in the half's bounding box. */
  lemma RowInBox(sh: Shading, kind: Flat, h: Half, y: int)
    requires sh.Valid() && HalfShape(kind, h) && Height(h) > 0 && h.v0.y <= y <= h.v2.y
    ensures var px := SpanPixels(sh, RowSpan(sh, kind, h, y), y);
            forall k :: 0 <= k < |px| ==> InBox(HalfBox(h), px[k].x, px[k].y)
  {
    var s := RowSpan(sh, kind, h, y);
    var px := SpanPixels(sh, s, y);
    RowSpanInBox(sh, kind, h, y);
    SpanCover(sh, s, y);
    forall k | 0 <= k < |px|
      ensures InBox(HalfBox(h), px[k].x, px[k].y)
    {
      assert Covers(s, px[k].x);
    }
  }

  /** Every point a fill draws lies in the bounding box of its half. */
  lemma FillInBox(sh: Shading, kind: Flat, h: Half)
    requires sh.Valid() && HalfShape(kind, h)
    ensures var px := FillPixels(sh, kind, h);
            forall k :: 0 <= k < |px| ==> InBox(HalfBox(h), px[k].x, px[k].y)
  {
    var px := FillPixels(sh, kind, h);
    forall k | 0 <= k < |px|
      ensures InBox(HalfBox(h), px[k].x, px[k].y)
    {
      var y, j := FillMember(sh, kind, h, k);
      RowInBox(sh, kind, h, y);
    }
  }

  /** Python's int() of a value between two integers stays between them. */
  lemma TruncBetween(a: int, b: int, r: real)
    requires a as real <= r <= b as real
    ensures a <= Trunc(r) <= b
  {
  }

  /** The parameter of the split lies in [0, 1]. */
  lemma SplitTUnit(t: Trio)
    requires t.top.y <= t.mid.y <= t.bot.y && t.top.y != t.bot.y
    ensures InUnit(SplitT(t))
  {
    assert (t.mid.y - t.top.y) as real <= (t.bot.y - t.top.y) as real;
  }

  /**
   * Each half drawTriangle fills has the shape its fill assumes and lies inside
   * the triangle's bounding box (the split vertex is on the long side).
   */
  lemma PartsWithin(p1: Point, p2: Point, p3: Point, sh: Shading)
    ensures var parts := Parts(p1, p2, p3, sh);
            forall i :: 0 <= i < |parts| ==>
              HalfShape(parts[i].kind, parts[i].half)
              && BoxWithin(HalfBox(parts[i].half), BoundingBox(p1, p2, p3))
  {
    var t := SortByY(p1, p2, p3);
    var box := BoundingBox(p1, p2, p3);
    SortedInBox(p1, p2, p3);
    HalvesWithin(sh, t, VertUv(box, t.top), VertUv(box, t.mid), VertUv(box, t.bot), box);
  }

  lemma HalvesWithin(sh: Shading, t: Trio, uvTop: Uv, uvMid: Uv, uvBot: Uv, box: Box)
    requires t.top.y <= t.mid.y <= t.bot.y
    requires InBox(box, t.top.x, t.top.y) && InBox(box, t.mid.x, t.mid.y) && InBox(box, t.bot.x, t.bot.y)
    ensures var parts := Halves(sh, t, uvTop, uvMid, uvBot);
            forall i :: 0 <= i < |parts| ==>
              HalfShape(parts[i].kind, parts[i].half) && BoxWithin(HalfBox(parts[i].half), box)
  {
    if t.mid.y != t.bot.y && t.top.y != t.mid.y {
      SplitInBox(sh, t, box);
    }
  }

  /** The sorted vertices are the inputs, so they lie in the inputs' box. */
  lemma SortedInBox(p1: Point, p2: Point, p3: Point)
    ensures var t := SortByY(p1, p2, p3);
            var box := BoundingBox(p1, p2, p3);
            InBox(box, t.top.x, t.top.y) && InBox(box, t.mid.x, t.mid.y) && InBox(box, t.bot.x, t.bot.y)
  {
    var t := SortByY(p1, p2, p3);
    assert t.top in multiset{p1, p2, p3} && t.mid in multiset{p1, p2, p3} && t.bot in multiset{p1, p2, p3};
  }

  /** The split vertex lies on the long side, hence in any box holding its two ends. */
  lemma SplitInBox(sh: Shading, t: Trio, box: Box)
    requires t.top.y < t.mid.y < t.bot.y
    requires InBox(box, t.top.x, t.top.y) && InBox(box, t.bot.x, t.bot.y) && InBox(box, t.mid.x, t.mid.y)
    ensures InBox(box, SplitPoint(sh, t).x, SplitPoint(sh, t).y)
  {
    SplitTUnit(t);
    var xs := Linterp(t.top.x as real, t.bot.x as real, SplitT(t));
    if t.top.x <= t.bot.x {
      TruncBetween(t.top.x, t.bot.x, xs);
    } else {
      TruncBetween(t.bot.x, t.top.x, xs);
    }
  }

  /** Every point drawTriangle draws lies in the bounding box of its three vertices. */
  lemma TriangleInBox(p1: Point, p2: Point, p3: Point, doSmooth: bool, doTexture: bool, texture: Option<Texture>)
    requires texture.Some? ==> texture.value.Valid()
    ensures var px := TrianglePixels(p1, p2, p3, doSmooth, doTexture, texture);
            forall k :: 0 <= k < |px| ==> InBox(BoundingBox(p1, p2, p3), px[k].x, px[k].y)
  {
    var sh := ShadingOf(p1, doSmooth, doTexture, texture);
    PartsWithin(p1, p2, p3, sh);
    PartsInBox(sh, Parts(p1, p2, p3, sh), BoundingBox(p1, p2, p3));
  }

  /** The points of halves that lie within a box lie in the box. */
  lemma PartsInBox(sh: Shading, parts: seq<Part>, box: Box)
    requires sh.Valid() && 1 <= |parts| <= 2
    requires forall i :: 0 <= i < |parts| ==>
               HalfShape(parts[i].kind, parts[i].half) && BoxWithin(HalfBox(parts[i].half), box)
    ensures var px := PartsPixels(sh, parts);
            forall k :: 0 <= k < |px| ==> InBox(box, px[k].x, px[k].y)
  {
    var a := FillPixels(sh, parts[0].kind, parts[0].half);
    FillInBox(sh, parts[0].kind, parts[0].half);
    if |parts| == 2 {
      var b := FillPixels(sh, parts[1].kind, parts[1].half);
      FillInBox(sh, parts[1].kind, parts[1].half);
      var ab: seq<Point> := a + b;
      forall k | 0 <= k < |ab|
        ensures InBox(box, ab[k].x, ab[k].y)
      {
        if k < |a| {
          assert ab[k] == a[k];
        } else {
          assert ab[k] == b[k - |a|];
        }
      }
    }
  }

  // ---------------------------------------------------------------------------
  // Colours

  /** Every colour a half can draw with is a unit colour. */
  predicate UnitShading(sh: Shading, h: Half)
  {
    && sh.Valid()
    && UnitColor(sh.flat) && UnitColor(h.v0.color) && UnitColor(h.v1.color) && UnitColor(h.v2.color)
    && (sh.Textured() ==> sh.texture.value.UnitTexels())
  }

  /** Between the crossings of a span with unit end colours (and texels), every column's colour is a unit colour. */
  lemma PixelColorUnit(sh: Shading, s: Span, x: int)
    requires sh.Valid() && UnitColor(sh.flat) && (sh.Textured() ==> sh.texture.value.UnitTexels())
    requires UnitColor(s.cLeft) && UnitColor(s.cRight) && Covers(s, x)
    ensures UnitColor(PixelColor(sh, s, x))
  {
    var a := Alpha(s, x);
    if sh.Textured() {
      var tex := sh.texture.value;
      BilinearUnit(tex, ToTexels(Linterp(s.uvLeft.u, s.uvRight.u, a), tex.width),
                   ToTexels(Linterp(s.uvLeft.v, s.uvRight.v, a), tex.height));
    }
  }

  /** A span with unit end colours (and texels) draws only unit colours. */
  lemma SpanColorsUnit(sh: Shading, s: Span, y: int)
    requires sh.Valid() && UnitColor(sh.flat) && (sh.Textured() ==> sh.texture.value.UnitTexels())
    requires UnitColor(s.cLeft) && UnitColor(s.cRight)
    ensures var px := SpanPixels(sh, s, y);
            forall k :: 0 <= k < |px| ==> UnitColor(px[k].color)
  {
    var px := SpanPixels(sh, s, y);
    SpanCover(sh, s, y);
    forall k | 0 <= k < |px|
      ensures UnitColor(px[k].color)
    {
      PixelColorUnit(sh, s, px[k].x);
    }
  }

  /** With unit vertex colours (and texels), a row of a half draws only unit colours. */
  lemma RowColorsUnit(sh: Shading, kind: Flat, h: Half, y: int)
    requires UnitShading(sh, h) && HalfShape(kind, h) && Height(h) > 0 && h.v0.y <= y <= h.v2.y
    ensures var px := SpanPixels(sh, RowSpan(sh, kind, h, y), y);
            forall k :: 0 <= k < |px| ==> UnitColor(px[k].color)
  {
    var (l, r) := Edges(kind, h);
    EdgeTUnit(l, y);
    EdgeTUnit(r, y);
    var s := RowSpan(sh, kind, h, y);
    assert UnitColor(s.cLeft) && UnitColor(s.cRight);
    SpanColorsUnit(sh, s, y);
  }

  /** With unit vertex colours (and texels), a fill draws only unit colours. */
  lemma FillColorsUnit(sh: Shading, kind: Flat, h: Half)
    requires UnitShading(sh, h) && HalfShape(kind, h)
    ensures var px := FillPixels(sh, kind, h);
            forall k :: 0 <= k < |px| ==> UnitColor(px[k].color)
  {
    var px := FillPixels(sh, kind, h);
    forall k | 0 <= k < |px|
      ensures UnitColor(px[k].color)
    {
      var y, j := FillMember(sh, kind, h, k);
      RowColorsUnit(sh, kind, h, y);
    }
  }

  /** The halves of a triangle with unit vertex colours have unit vertex colours, the split included. */
  lemma HalvesColorsUnit(sh: Shading, t: Trio, uvTop: Uv, uvMid: Uv, uvBot: Uv)
    requires t.top.y <= t.mid.y <= t.bot.y
    requires sh.Valid() && UnitColor(sh.flat) && (sh.Textured() ==> sh.texture.value.UnitTexels())
    requires UnitColor(t.top.color) && UnitColor(t.mid.color) && UnitColor(t.bot.color)
    ensures var parts := Halves(sh, t, uvTop, uvMid, uvBot);
            forall i :: 0 <= i < |parts| ==> UnitShading(sh, parts[i].half)
  {
    if t.mid.y != t.bot.y && t.top.y != t.mid.y {
      SplitTUnit(t);
    }
  }

  /**
   * With unit vertex colours (and, when texturing, unit texels) every point
   * drawTriangle draws has a unit colour, so drawPoint stores it without wrap-around.
   */
  lemma TriangleColorsUnit(p1: Point, p2: Point, p3: Point, doSmooth: bool, doTexture: bool, texture: Option<Texture>)
    requires texture.Some? ==> texture.value.Valid() && texture.value.UnitTexels()
    requires UnitColor(p1.color) && UnitColor(p2.color) && UnitColor(p3.color)
    ensures var px := TrianglePixels(p1, p2, p3, doSmooth, doTexture, texture);
            forall k :: 0 <= k < |px| ==> UnitColor(px[k].color)
  {
    var sh := ShadingOf(p1, doSmooth, doTexture, texture);
    var t := SortByY(p1, p2, p3);
    var box := BoundingBox(p1, p2, p3);
    assert t.top in multiset{p1, p2, p3} && t.mid in multiset{p1, p2, p3} && t.bot in multiset{p1, p2, p3};
    HalvesColorsUnit(sh, t, VertUv(box, t.top), VertUv(box, t.mid), VertUv(box, t.bot));
    var parts := Parts(p1, p2, p3, sh);
    PartsWithin(p1, p2, p3, sh);
    FillColorsUnit(sh, parts[0].kind, parts[0].half);
    if |parts| == 2 {
      FillColorsUnit(sh, parts[1].kind, parts[1].half);
    }
  }

  /** Without smoothing or a texture, every point of a fill has the flat colour. */
  lemma FlatFillColor(sh: Shading, kind: Flat, h: Half)
    requires sh.Valid() && !sh.doSmooth && !sh.Textured()
    ensures var px := FillPixels(sh, kind, h);
            forall k :: 0 <= k < |px| ==> px[k].color == sh.flat
  {
    var px := FillPixels(sh, kind, h);
    forall k | 0 <= k < |px|
      ensures px[k].color == sh.flat
    {
      var y, j := FillMember(sh, kind, h, k);
      var s := RowSpan(sh, kind, h, y);
      assert px[k] == SpanPixels(sh, s, y)[j];
      assert SpanPixels(sh, s, y)[j].color == PixelColor(sh, s, Ceil(s.xLeft) + j);
    }
  }

  /**
   * Flat shading without a texture paints the whole triangle in the colour of the
   * first vertex passed in, whichever vertex ends up on top.
   */
  lemma FlatShadedTriangle(p1: Point, p2: Point, p3: Point, doTexture: bool, texture: Option<Texture>)
    requires texture.Some? ==> texture.value.Valid()
    requires !doTexture || texture.None?
    ensures var px := TrianglePixels(p1, p2, p3, false, doTexture, texture);
            forall k :: 0 <= k < |px| ==> px[k].color == p1.color
  {
    var sh := ShadingOf(p1, false, doTexture, texture);
    var parts := Parts(p1, p2, p3, sh);
    FlatFillColor(sh, parts[0].kind, parts[0].half);
    if |parts| == 2 {
      FlatFillColor(sh, parts[1].kind, parts[1].half);
    }
  }

  /** Three vertices on one row make a triangle of height zero: nothing is drawn. */
  lemma LevelTriangleDrawsNothing(p1: Point, p2: Point, p3: Point, doSmooth: bool, doTexture: bool,
                                  texture: Option<Texture>)
    requires texture.Some? ==> texture.value.Valid()
    requires p1.y == p2.y == p3.y
    ensures TrianglePixels(p1, p2, p3, doSmooth, doTexture, texture) == []
  {
  }

  /**
   * A general triangle's middle row is filled by both halves (the flat-bottom
   * half's last row, the flat-top half's first): both compute the same span
   * there, so the second pass repaints it with the very same points.
   */
  lemma SplitRowsAgree(sh: Shading, t: Trio, uvTop: Uv, uvMid: Uv, uvBot: Uv)
    requires sh.Valid() && t.top.y < t.mid.y < t.bot.y
    ensures var parts := Halves(sh, t, uvTop, uvMid, uvBot);
            && |parts| == 2
            && RowSpan(sh, FlatBottom, parts[0].half, t.mid.y) == RowSpan(sh, FlatTop, parts[1].half, t.mid.y)
            && SpanPixels(sh, RowSpan(sh, FlatBottom, parts[0].half, t.mid.y), t.mid.y)
               == SpanPixels(sh, RowSpan(sh, FlatTop, parts[1].half, t.mid.y), t.mid.y)
  {
    var parts := Halves(sh, t, uvTop, uvMid, uvBot);
    var lower, upper := parts[0].half, parts[1].half;
    var (l0, r0) := Edges(FlatBottom, lower);
    var (l1, r1) := Edges(FlatTop, upper);
    DivSelf((t.mid.y - t.top.y) as real);
    assert EdgeT(l0, t.mid.y) == 1.0 && EdgeT(r0, t.mid.y) == 1.0;
    assert EdgeT(l1, t.mid.y) == 0.0 && EdgeT(r1, t.mid.y) == 0.0;
  }

  // ---------------------------------------------------------------------------
  // What the drawing methods keep

  /** Whether every pixel of the box is in the buffer. */
  predicate BoxInBuffer(buff: array2<Rgb>, b: Box)
  {
    InBuffer(buff, b.minX, b.minY) && InBuffer(buff, b.maxX, b.maxY)
  }

  /** Drawing more points extends the write history by them. */
  lemma PaintAfter(done: seq<Point>, more: seq<Point>, x: int, y: int, before: Rgb, was: Rgb, now: Rgb)
    requires was == PixelAfter(done, x, y, before)
    requires now == PixelAfter(more, x, y, was)
    ensures now == PixelAfter(done + more, x, y, before)
  {
    PixelAfterAppend(done, more, x, y, before);
  }

  /** A row of a half whose box is in the buffer lies in the buffer. */
  lemma RowInBuffer(buff: array2<Rgb>, sh: Shading, kind: Flat, h: Half, y: int)
    requires sh.Valid() && HalfShape(kind, h) && Height(h) > 0 && h.v0.y <= y <= h.v2.y
    requires BoxInBuffer(buff, HalfBox(h))
    ensures var px := SpanPixels(sh, RowSpan(sh, kind, h, y), y);
            forall k :: 0 <= k < |px| ==> InBuffer(buff, px[k].x, px[k].y)
  {
    RowInBox(sh, kind, h, y);
  }

  /** Every point of the span's row lies in the buffer. */
  predicate SpanInBuffer(buff: array2<Rgb>, sh: Shading, s: Span, y: int)
    requires sh.Valid()
  {
    forall k :: 0 <= k < |SpanPixels(sh, s, y)| ==> InBuffer(buff, SpanPixels(sh, s, y)[k].x, SpanPixels(sh, s, y)[k].y)
  }

  /** Each row of a half whose box is in the buffer lies in the buffer. */
  lemma SpansInBuffer(buff: array2<Rgb>, sh: Shading, kind: Flat, h: Half)
    requires sh.Valid() && HalfShape(kind, h) && Height(h) > 0 && BoxInBuffer(buff, HalfBox(h))
    ensures var spans := RowSpans(sh, kind, h);
            forall i :: 0 <= i < |spans| ==> SpanInBuffer(buff, sh, spans[i], h.v0.y + i)
  {
    var spans := RowSpans(sh, kind, h);
    forall i | 0 <= i < |spans|
      ensures SpanInBuffer(buff, sh, spans[i], h.v0.y + i)
    {
      RowInBuffer(buff, sh, kind, h, h.v0.y + i);
    }
  }

  /** After the last row the whole half is drawn. */
  lemma FillEnd(buff: array2<Rgb>, sh: Shading, kind: Flat, h: Half, base: seq<seq<Rgb>>)
    requires sh.Valid() && Height(h) > 0
    requires Painted(buff, base, SpanRows(sh, RowSpans(sh, kind, h), h.v0.y, |RowSpans(sh, kind, h)|))
    ensures |base| == buff.Length0 && forall x :: 0 <= x < buff.Length0 ==> |base[x]| == buff.Length1
    ensures forall x, y :: InBuffer(buff, x, y) ==> buff[x, y] == PixelAfter(FillPixels(sh, kind, h), x, y, base[x][y])
  {
    PaintedPixels(buff, base, SpanRows(sh, RowSpans(sh, kind, h), h.v0.y, |RowSpans(sh, kind, h)|));
  }

  /** The triangle's points are those of the halves of its sorted vertices. */
  lemma TriangleHalves(p1: Point, p2: Point, p3: Point, doSmooth: bool, doTexture: bool, texture: Option<Texture>)
    requires texture.Some? ==> texture.value.Valid()
    ensures var t := SortByY(p1, p2, p3);
            var box := BoundingBox(p1, p2, p3);
            var sh := Shading(doSmooth, doTexture, texture, p1.color);
            && t.top.y <= t.mid.y <= t.bot.y
            && TrianglePixels(p1, p2, p3, doSmooth, doTexture, texture)
               == PartsPixels(sh, Halves(sh, t, VertUv(box, t.top), VertUv(box, t.mid), VertUv(box, t.bot)))
  {
  }

}
