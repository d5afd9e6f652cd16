/**
 * The pixel buffer (Buff) and drawPoint.  A buffer is a width x height grid of
 * uint8 RGB triples, indexed [x, y] as Buff.buff is.
 */
module Canvas {
  import opened Colors

  /** One stored pixel: three uint8 channels. */
  datatype Rgb = Rgb(r: int, g: int, b: int)

  /** Point: integer pixel coordinates and a colour. */
  datatype Point = Point(x: int, y: int, color: Color)

  /** Python's int() on a float: truncation toward zero. */
  function Trunc(r: real): (n: int)
    ensures r >= 0.0 ==> n == r.Floor
    ensures r < 0.0 ==> r <= n as real < r + 1.0
  {
    if r >= 0.0 then r.Floor else -((-r).Floor)
  }

  /** math.ceil. */
  function Ceil(r: real): (n: int)
    ensures r <= n as real < r + 1.0
  {
    -((-r).Floor)
  }

  /**
   * The uint8 channel numpy stores for `channel * 255`: the C conversion truncates
   * toward zero and keeps the low eight bits.  On [0, 1] this is floor(channel * 255).
   */
  function ToByte(c: real): (b: int)
    ensures 0 <= b < 256
    ensures InUnit(c) ==> b == (c * 255.0).Floor
  {
    var n := Trunc(c * 255.0);
    assert InUnit(c) ==> 0 <= n <= 255 by {
      if InUnit(c) { assert 0.0 <= c * 255.0 <= 1.0 * 255.0; }
    }
    n % 256
  }

  function Encode(c: Color): Rgb
  {
    Rgb(ToByte(c.r), ToByte(c.g), ToByte(c.b))
  }

  predicate InBuffer(buff: array2<Rgb>, x: int, y: int)
  {
    0 <= x < buff.Length0 && 0 <= y < buff.Length1
  }

  /**
   * The value pixel (x, y) holds after the points `writes` were drawn, in order,
   * over a pixel that held `before`: the last write to (x, y) wins.
   */
  function PixelAfter(writes: seq<Point>, x: int, y: int, before: Rgb): Rgb
    decreases |writes|
  {
    if writes == [] then before
    else
      var last := writes[|writes| - 1];
      if last.x == x && last.y == y then Encode(last.color)
      else PixelAfter(writes[..|writes| - 1], x, y, before)
  }

  /** Drawing A and then B is drawing A + B. */
  lemma {:induction false} PixelAfterAppend(a: seq<Point>, b: seq<Point>, x: int, y: int, before: Rgb)
    ensures PixelAfter(a + b, x, y, before) == PixelAfter(b, x, y, PixelAfter(a, x, y, before))
    decreases |b|
  {
    if b == [] {
      assert a + b == a;
    } else {
      var n := |b| - 1;
      assert (a + b)[..|a + b| - 1] == a + b[..n];
      assert (a + b)[|a + b| - 1] == b[n];
      PixelAfterAppend(a, b[..n], x, y, before);
    }
  }

  /** A pixel that no write targets keeps its value. */
  lemma {:induction false} PixelAfterMiss(writes: seq<Point>, x: int, y: int, before: Rgb)
    requires forall k :: 0 <= k < |writes| ==> writes[k].x != x || writes[k].y != y
    ensures PixelAfter(writes, x, y, before) == before
    decreases |writes|
  {
    if writes != [] {
      PixelAfterMiss(writes[..|writes| - 1], x, y, before);
    }
  }

  /** A pixel targeted by some write ends with the colour of the last write that targets it. */
  lemma {:induction false} PixelAfterHit(writes: seq<Point>, k: int, before: Rgb)
    requires 0 <= k < |writes|
    requires forall j :: k < j < |writes| ==> writes[j].x != writes[k].x || writes[j].y != writes[k].y
    ensures PixelAfter(writes, writes[k].x, writes[k].y, before) == Encode(writes[k].color)
    decreases |writes|
  {
    if k < |writes| - 1 {
      PixelAfterHit(writes[..|writes| - 1], k, before);
    }
  }

  /** The buffer's contents as a grid of values. */
  ghost function Snapshot(buff: array2<Rgb>): (g: seq<seq<Rgb>>)
    reads buff
    ensures |g| == buff.Length0
    ensures forall x :: 0 <= x < buff.Length0 ==> |g[x]| == buff.Length1
    ensures forall x, y :: InBuffer(buff, x, y) ==> g[x][y] == buff[x, y]
  {
    seq(buff.Length0, x requires 0 <= x < buff.Length0 reads buff =>
      seq(buff.Length1, y requires 0 <= y < buff.Length1 reads buff => buff[x, y]))
  }

  /** The grid `base` with the points `writes` drawn over it, in order. */
  ghost function GridAfter(base: seq<seq<Rgb>>, writes: seq<Point>): seq<seq<Rgb>>
  {
    seq(|base|, x requires 0 <= x < |base| =>
      seq(|base[x]|, y requires 0 <= y < |base[x]| => PixelAfter(writes, x, y, base[x][y])))
  }

  /** Whether the buffer holds the grid `base` with the points `writes` drawn over it. */
  ghost predicate Painted(buff: array2<Rgb>, base: seq<seq<Rgb>>, writes: seq<Point>)
    reads buff
  {
    Snapshot(buff) == GridAfter(base, writes)
  }

  /** Nothing drawn over a snapshot of the buffer is the buffer. */
  lemma SnapshotPainted(buff: array2<Rgb>)
    ensures Painted(buff, Snapshot(buff), [])
  {
    PixelsPainted(buff, Snapshot(buff), []);
  }

  /** Painted, pixel by pixel. */
  lemma PaintedPixels(buff: array2<Rgb>, base: seq<seq<Rgb>>, writes: seq<Point>)
    requires Painted(buff, base, writes)
    ensures |base| == buff.Length0 && forall x :: 0 <= x < buff.Length0 ==> |base[x]| == buff.Length1
    ensures forall x, y :: InBuffer(buff, x, y) ==> buff[x, y] == PixelAfter(writes, x, y, base[x][y])
  {
    var g := Snapshot(buff);
    forall x | 0 <= x < buff.Length0
      ensures |base[x]| == buff.Length1
    {
      assert |g[x]| == |GridAfter(base, writes)[x]|;
    }
    forall x, y | InBuffer(buff, x, y)
      ensures buff[x, y] == PixelAfter(writes, x, y, base[x][y])
    {
      assert g[x][y] == GridAfter(base, writes)[x][y];
    }
  }

  /** Pixel by pixel, Painted. */
  lemma PixelsPainted(buff: array2<Rgb>, base: seq<seq<Rgb>>, writes: seq<Point>)
    requires |base| == buff.Length0 && forall x :: 0 <= x < buff.Length0 ==> |base[x]| == buff.Length1
    requires forall x, y :: InBuffer(buff, x, y) ==> buff[x, y] == PixelAfter(writes, x, y, base[x][y])
    ensures Painted(buff, base, writes)
  {
    var g, after := Snapshot(buff), GridAfter(base, writes);
    forall x | 0 <= x < buff.Length0
      ensures g[x] == after[x]
    {
      assert forall y :: 0 <= y < buff.Length1 ==> g[x][y] == after[x][y];
    }
  }

  /** drawPoint (Sketch.py:249-264): stores the three channels of the point's colour at (x, y) and nothing else. */
  method DrawPoint(buff: array2<Rgb>, p: Point)
    requires InBuffer(buff, p.x, p.y)
    modifies buff
    ensures buff[p.x, p.y] == Encode(p.color)
    ensures forall x, y :: InBuffer(buff, x, y) && (x != p.x || y != p.y) ==> buff[x, y] == old(buff[x, y])
  {
    buff[p.x, p.y] := Rgb(ToByte(p.color.r), ToByte(p.color.g), ToByte(p.color.b));
  }

  /** Drawing one more point extends the write history by that point. */
  lemma PaintStep(done: seq<Point>, p: Point, x: int, y: int, was: Rgb, before: Rgb, now: Rgb)
    requires was == PixelAfter(done, x, y, before)
    requires now == if x == p.x && y == p.y then Encode(p.color) else was
    ensures now == PixelAfter(done + [p], x, y, before)
  {
    assert (done + [p])[..|done|] == done;
  }
}
