/**
 * drawLine (Sketch.py:266-333): a Bresenham walk over x with per-pixel colour.
 *
 * As written, a steep line (dy > dx) swaps its end points, colours and the two
 * deltas but does not transpose the axes: the walk is still one pixel per
 * column from x1 to x2, and a walk whose x1 exceeds x2 draws nothing.
 */
module Line {
  import opened Colors
  import opened Canvas

  function Abs(n: int): nat { if n < 0 then -n else n }

  /** The walk after the set-up of Sketch.py:290-308. */
  datatype Walk = Walk(x1: int, y1: int, x2: int, y2: int, c1: Color, c2: Color, dx: nat, dy: nat, sy: int)

  predicate Steep(p1: Point, p2: Point) { Abs(p2.y - p1.y) > Abs(p2.x - p1.x) }

  /**
   * Sketch.py:290-308.  A steep line exchanges its end points, colours and deltas;
   * afterwards dy <= dx and sy points from y1 toward y2.
   */
  function SetupLine(p1: Point, p2: Point): (w: Walk)
    ensures w.dy <= w.dx
    ensures w.sy == (if w.y1 < w.y2 then 1 else -1)
    ensures Steep(p1, p2) ==> w.x1 == p2.x && w.y1 == p2.y && w.x2 == p1.x && w.y2 == p1.y
                              && w.c1 == p2.color && w.c2 == p1.color
                              && w.dx == Abs(p2.y - p1.y) && w.dy == Abs(p2.x - p1.x)
    ensures !Steep(p1, p2) ==> w.x1 == p1.x && w.y1 == p1.y && w.x2 == p2.x && w.y2 == p2.y
                               && w.c1 == p1.color && w.c2 == p2.color
                               && w.dx == Abs(p2.x - p1.x) && w.dy == Abs(p2.y - p1.y)
  {
    var dx := Abs(p2.x - p1.x);
    var dy := Abs(p2.y - p1.y);
    if dy > dx then
      Walk(p2.x, p2.y, p1.x, p1.y, p2.color, p1.color, dy, dx, if p2.y < p1.y then 1 else -1)
    else
      Walk(p1.x, p1.y, p2.x, p2.y, p1.color, p2.color, dx, dy, if p1.y < p2.y then 1 else -1)
  }

  /** a div b, by repeated subtraction. */
  function Quot(a: nat, b: nat): nat
    requires b > 0
    decreases a
  {
    if a < b then 0 else 1 + Quot(a - b, b)
  }

  /**
   * The number of y steps Bresenham has taken before column i: the nearest whole
   * number to i * dy / dx, halves rounded up, i.e. (2*dy*i + dx) div (2*dx).
   */
  function Row(dx: nat, dy: nat, i: nat): nat
  {
    if dx == 0 then 0 else Quot(2 * dy * i + dx, 2 * dx)
  }

  /** The colour the walk gives column x (Sketch.py:317-324). */
  function ColumnColor(w: Walk, doSmooth: bool, x: int): Color
  {
    if doSmooth && w.dx != 0 then
      var t := (x - w.x1) as real / w.dx as real;
      Color((1.0 - t) * w.c1.r + t * w.c2.r, (1.0 - t) * w.c1.g + t * w.c2.g, (1.0 - t) * w.c1.b + t * w.c2.b)
    else if Abs(x - w.x1) < Abs(x - w.x2) then w.c1
    else w.c2
  }

  /** The smooth column colour is the affine blend Linterp uses. */
  lemma SmoothIsLinterp(w: Walk, x: int)
    requires w.dx != 0
    ensures ColumnColor(w, true, x) == LinterpColor(w.c1, w.c2, (x - w.x1) as real / w.dx as real)
  {
    var t := (x - w.x1) as real / w.dx as real;
    assert (1.0 - t) * w.c1.r + t * w.c2.r == w.c1.r + t * (w.c2.r - w.c1.r);
    assert (1.0 - t) * w.c1.g + t * w.c2.g == w.c1.g + t * (w.c2.g - w.c1.g);
    assert (1.0 - t) * w.c1.b + t * w.c2.b == w.c1.b + t * (w.c2.b - w.c1.b);
  }

  /** The row of the walk's k-th column. */
  function ColumnY(w: Walk, k: nat): int
  {
    w.y1 + w.sy * Row(w.dx, w.dy, k)
  }

  /** The walk's k-th point: column x1 + k, its row and its colour. */
  function PointAt(w: Walk, doSmooth: bool, k: nat): Point
  {
    Point(w.x1 + k, ColumnY(w, k), ColumnColor(w, doSmooth, w.x1 + k))
  }

  /** The points a walk visits, in order: one per column x1..x2. */
  function WalkPixels(w: Walk, doSmooth: bool): seq<Point>
  {
    if w.x1 > w.x2 then []
    else seq(w.x2 - w.x1 + 1, i requires 0 <= i => PointAt(w, doSmooth, i))
  }

  /** The points drawLine draws, in drawing order. */
  function LinePixels(p1: Point, p2: Point, doSmooth: bool): seq<Point>
  {
    WalkPixels(SetupLine(p1, p2), doSmooth)
  }

  /** The k-th drawn point. */
  lemma LinePixelAt(p1: Point, p2: Point, doSmooth: bool, k: int)
    requires 0 <= k < |LinePixels(p1, p2, doSmooth)|
    ensures LinePixels(p1, p2, doSmooth)[k] == PointAt(SetupLine(p1, p2), doSmooth, k)
  {
  }

  /** The first k + 1 points of a walk extend the first k by the k-th. */
  lemma WalkPrefixStep(w: Walk, doSmooth: bool, k: int)
    requires 0 <= k < |WalkPixels(w, doSmooth)|
    ensures var px := WalkPixels(w, doSmooth);
            px[k] == PointAt(w, doSmooth, k) && px[..k + 1] == px[..k] + [px[k]]
  {
    var px := WalkPixels(w, doSmooth);
    assert px[..k + 1] == px[..k] + [px[k]];
  }

  // ---------------------------------------------------------------------------
  // Arithmetic of the closed-form row

  lemma MulAtLeast(b: int, m: int)
    requires b > 0
    ensures m >= 1 ==> b * m >= b
    ensures m <= -1 ==> b * m <= -b
  {
  }

  /** The quotient satisfies the bounds of division. */
  lemma {:induction false} QuotBounds(a: nat, b: nat)
    requires b > 0
    ensures b * Quot(a, b) <= a < b * (Quot(a, b) + 1)
    decreases a
  {
    if a >= b {
      QuotBounds(a - b, b);
      assert b * (Quot(a - b, b) + 1) == b * Quot(a - b, b) + b;
      assert b * (Quot(a - b, b) + 2) == b * (Quot(a - b, b) + 1) + b;
    }
  }

  /** ... and is determined by them. */
  lemma QuotIs(a: nat, b: nat, q: int)
    requires b > 0 && b * q <= a < b * (q + 1)
    ensures Quot(a, b) == q
  {
    var d := Quot(a, b);
    QuotBounds(a, b);
    MulAtLeast(b, d - q);
    assert b * (d - q) == b * d - b * q;
    assert b * (d + 1) == b * d + b;
    assert b * (q + 1) == b * q + b;
  }

  /** The defining bounds of Row. */
  lemma RowBounds(dx: nat, dy: nat, i: nat)
    requires dx > 0
    ensures 2 * dx * Row(dx, dy, i) <= 2 * dy * i + dx < 2 * dx * (Row(dx, dy, i) + 1)
  {
    QuotBounds(2 * dy * i + dx, 2 * dx);
  }

  /**
   * One Bresenham step: with e = 2*dy*(i+1) - dx - 2*dx*Row(i) (the decision
   * variable P before column i is updated), Row grows by one exactly when e >= 0.
   */
  lemma {:induction false} RowStep(dx: nat, dy: nat, i: nat)
    requires 0 < dx && dy <= dx
    ensures var e := 2 * dy * (i + 1) - dx - 2 * dx * Row(dx, dy, i);
            Row(dx, dy, i + 1) == if e < 0 then Row(dx, dy, i) else Row(dx, dy, i) + 1
  {
    var q := Row(dx, dy, i);
    RowBounds(dx, dy, i);
    var a := 2 * dy * (i + 1) + dx;
    assert a == 2 * dy * i + dx + 2 * dy;
    if a < 2 * dx * (q + 1) {
      QuotIs(a, 2 * dx, q);
    } else {
      assert 2 * dx * (q + 2) == 2 * dx * (q + 1) + 2 * dx;
      QuotIs(a, 2 * dx, q + 1);
    }
  }

  /** The decision variable P as it stands before column i is processed. */
  function Decision(dx: nat, dy: nat, i: nat): int
  {
    2 * dy * (i + 1) - dx - 2 * dx * Row(dx, dy, i)
  }

  /** Sketch.py:328-332 keep P equal to Decision and move y exactly when Row grows. */
  lemma DecisionStep(dx: nat, dy: nat, i: nat)
    requires 0 < dx && dy <= dx
    ensures Decision(dx, dy, i) < 0 ==>
              Row(dx, dy, i + 1) == Row(dx, dy, i) && Decision(dx, dy, i + 1) == Decision(dx, dy, i) + 2 * dy
    ensures Decision(dx, dy, i) >= 0 ==>
              Row(dx, dy, i + 1) == Row(dx, dy, i) + 1 && Decision(dx, dy, i + 1) == Decision(dx, dy, i) + 2 * (dy - dx)
  {
    RowStep(dx, dy, i);
  }

  /**
   * One column of the loop of Sketch.py:326-332: a negative decision keeps the row,
   * any other moves it one step by sy.
   */
  lemma WalkStep(w: Walk, k: nat)
    requires 0 < w.dx && w.dy <= w.dx
    ensures Decision(w.dx, w.dy, k) < 0 ==>
              ColumnY(w, k + 1) == ColumnY(w, k) && Decision(w.dx, w.dy, k + 1) == Decision(w.dx, w.dy, k) + 2 * w.dy
    ensures Decision(w.dx, w.dy, k) >= 0 ==>
              ColumnY(w, k + 1) == ColumnY(w, k) + w.sy
              && Decision(w.dx, w.dy, k + 1) == Decision(w.dx, w.dy, k) + 2 * (w.dy - w.dx)
  {
    DecisionStep(w.dx, w.dy, k);
    if Decision(w.dx, w.dy, k) >= 0 {
      assert w.sy * (Row(w.dx, w.dy, k) + 1) == w.sy * Row(w.dx, w.dy, k) + w.sy;
    }
  }

  /** Row starts at 0, is monotone, and reaches dy at column dx. */
  lemma RowEnds(dx: nat, dy: nat)
    requires 0 < dx && dy <= dx
    ensures Row(dx, dy, 0) == 0
    ensures Row(dx, dy, dx) == dy
  {
    QuotIs(dx, 2 * dx, 0);
    assert 2 * dy * dx + dx == 2 * dx * dy + dx;
    QuotIs(2 * dy * dx + dx, 2 * dx, dy);
  }

  lemma {:induction false} RowMonotone(dx: nat, dy: nat, i: nat, j: nat)
    requires 0 < dx && dy <= dx && i <= j
    ensures Row(dx, dy, i) <= Row(dx, dy, j)
    decreases j - i
  {
    if i < j {
      RowStep(dx, dy, i);
      RowMonotone(dx, dy, i + 1, j);
    }
  }

  // ---------------------------------------------------------------------------
  // Properties of the drawn points

  /** Whether drawLine draws anything: after the steep swap, x1 <= x2. */
  predicate Drawn(p1: Point, p2: Point)
  {
    if Steep(p1, p2) then p2.x <= p1.x else p1.x <= p2.x
  }

  /**
   * Exactly one point per column, in increasing x, from the walk's start column;
   * |x2 - x1| + 1 points when anything is drawn (also for a steep line, whose
   * columns are not transposed), none otherwise.
   */
  lemma LineColumns(p1: Point, p2: Point, doSmooth: bool)
    ensures var px := LinePixels(p1, p2, doSmooth);
            && |px| == (if Drawn(p1, p2) then Abs(p2.x - p1.x) + 1 else 0)
            && forall k :: 0 <= k < |px| ==> px[k].x == SetupLine(p1, p2).x1 + k
  {
  }

  /** Consecutive points are 8-connected: x grows by one and y moves by 0 or by sy. */
  lemma LineConnected(p1: Point, p2: Point, doSmooth: bool)
    ensures var px := LinePixels(p1, p2, doSmooth);
            var w := SetupLine(p1, p2);
            forall k :: 0 <= k < |px| - 1 ==>
              px[k + 1].x == px[k].x + 1 && (px[k + 1].y == px[k].y || px[k + 1].y == px[k].y + w.sy)
  {
    var px := LinePixels(p1, p2, doSmooth);
    var w := SetupLine(p1, p2);
    forall k | 0 <= k < |px| - 1
      ensures px[k + 1].y == px[k].y || px[k + 1].y == px[k].y + w.sy
    {
      RowStep(w.dx, w.dy, k);
    }
  }

  /** A shallow line drawn left to right starts at p1 and ends exactly at p2. */
  lemma LineEndpoints(p1: Point, p2: Point, doSmooth: bool)
    requires !Steep(p1, p2) && p1.x <= p2.x
    ensures var px := LinePixels(p1, p2, doSmooth);
            && |px| == p2.x - p1.x + 1
            && px[0].x == p1.x && px[0].y == p1.y
            && px[|px| - 1].x == p2.x && px[|px| - 1].y == p2.y
  {
    var w := SetupLine(p1, p2);
    if w.dx > 0 {
      RowEnds(w.dx, w.dy);
    }
  }

  /** Every drawn point lies in the bounding box of the two end points. */
  lemma LineInBox(p1: Point, p2: Point, doSmooth: bool)
    ensures var px := LinePixels(p1, p2, doSmooth);
            forall k :: 0 <= k < |px| ==>
              && (p1.x <= px[k].x <= p2.x || p2.x <= px[k].x <= p1.x)
              && (p1.y <= px[k].y <= p2.y || p2.y <= px[k].y <= p1.y)
  {
    var px := LinePixels(p1, p2, doSmooth);
    var w := SetupLine(p1, p2);
    forall k | 0 <= k < |px|
      ensures p1.y <= px[k].y <= p2.y || p2.y <= px[k].y <= p1.y
    {
      var r := Row(w.dx, w.dy, k);
      assert px[k].y == w.y1 + w.sy * r;
      if w.dx > 0 {
        assert k <= w.dx by {
          if !Steep(p1, p2) { assert k <= w.x2 - w.x1 == w.dx; }
        }
        RowMonotone(w.dx, w.dy, k, w.dx);
        RowEnds(w.dx, w.dy);
        assert r <= w.dy <= Abs(w.y2 - w.y1);
      }
    }
  }

  /**
   * Smooth colouring with dx != 0: column x gets (1 - t) c1 + t c2 with
   * t = (x - x1) / dx; the first point gets exactly c1.
   */
  lemma SmoothLineColors(p1: Point, p2: Point)
    requires SetupLine(p1, p2).dx != 0
    ensures var px := LinePixels(p1, p2, true);
            var w := SetupLine(p1, p2);
            && (forall k :: 0 <= k < |px| ==>
                  var t := k as real / w.dx as real;
                  px[k].color == Color((1.0 - t) * w.c1.r + t * w.c2.r,
                                       (1.0 - t) * w.c1.g + t * w.c2.g,
                                       (1.0 - t) * w.c1.b + t * w.c2.b))
            && (|px| > 0 ==> px[0].color == w.c1)
  {
    var px := LinePixels(p1, p2, true);
    var w := SetupLine(p1, p2);
    forall k | 0 <= k < |px|
      ensures px[k].color == ColumnColor(w, true, w.x1 + k)
    {
      LinePixelAt(p1, p2, true, k);
    }
    if |px| > 0 {
      assert (w.x1 - w.x1) as real / w.dx as real == 0.0;
    }
  }

  /**
   * Without smoothing (or with dx == 0) a point gets c1 exactly when its column is
   * strictly nearer x1 than x2, and c2 otherwise.
   */
  lemma FlatLineColors(p1: Point, p2: Point, doSmooth: bool)
    requires !doSmooth || SetupLine(p1, p2).dx == 0
    ensures var px := LinePixels(p1, p2, doSmooth);
            var w := SetupLine(p1, p2);
            forall k :: 0 <= k < |px| ==>
              (px[k].color == if Abs(px[k].x - w.x1) < Abs(px[k].x - w.x2) then w.c1 else w.c2)
  {
  }

  /** A zero-length line draws its single point, in p2's colour. */
  lemma ZeroLengthLine(p1: Point, p2: Point, doSmooth: bool)
    requires p1.x == p2.x && p1.y == p2.y
    ensures LinePixels(p1, p2, doSmooth) == [Point(p1.x, p1.y, p2.color)]
  {
  }

  /** A shallow smooth line drawn left to right ends in exactly p2's colour. */
  lemma SmoothLineLastColor(p1: Point, p2: Point)
    requires !Steep(p1, p2) && p1.x < p2.x
    ensures var px := LinePixels(p1, p2, true);
            px[|px| - 1].color == p2.color
  {
    var w := SetupLine(p1, p2);
    var px := LinePixels(p1, p2, true);
    LinePixelAt(p1, p2, true, |px| - 1);
    assert (p2.x - w.x1) as real == w.dx as real;
    DivSelf(w.dx as real);
    SmoothIsLinterp(w, p2.x);
  }

  /** A column of the walk gets a unit colour when both end colours are unit. */
  lemma ColumnColorUnit(w: Walk, doSmooth: bool, x: int)
    requires UnitColor(w.c1) && UnitColor(w.c2)
    requires w.x1 <= x <= w.x1 + w.dx
    ensures UnitColor(ColumnColor(w, doSmooth, x))
  {
    if doSmooth && w.dx != 0 {
      var t := (x - w.x1) as real / w.dx as real;
      assert 0.0 <= t <= 1.0;
      SmoothIsLinterp(w, x);
    }
  }

  /** Unit end colours give unit colours on every drawn point. */
  lemma LineColorsUnit(p1: Point, p2: Point, doSmooth: bool)
    requires UnitColor(p1.color) && UnitColor(p2.color)
    ensures var px := LinePixels(p1, p2, doSmooth);
            forall k :: 0 <= k < |px| ==> UnitColor(px[k].color)
  {
    var px := LinePixels(p1, p2, doSmooth);
    var w := SetupLine(p1, p2);
    forall k | 0 <= k < |px|
      ensures UnitColor(px[k].color)
    {
      assert k <= w.dx by {
        if !Steep(p1, p2) { assert k <= w.x2 - w.x1 == w.dx; }
      }
      LinePixelAt(p1, p2, doSmooth, k);
      ColumnColorUnit(w, doSmooth, w.x1 + k);
    }
  }

  // ---------------------------------------------------------------------------
  // The method

  /**
   * The column loop of drawLine (Sketch.py:311-333) over a walk that has been set
   * up: one point per column from x1 to x2, the row chosen by the decision P.
   */
  method WalkLine(buff: array2<Rgb>, w: Walk, doSmooth: bool)
    requires w.dy <= w.dx && Abs(w.x2 - w.x1) <= w.dx
    requires forall k :: 0 <= k < |WalkPixels(w, doSmooth)| ==>
               InBuffer(buff, WalkPixels(w, doSmooth)[k].x, WalkPixels(w, doSmooth)[k].y)
    modifies buff
    ensures forall x, y :: InBuffer(buff, x, y) ==>
              buff[x, y] == PixelAfter(WalkPixels(w, doSmooth), x, y, old(buff[x, y]))
  {
    var P := 2 * w.dy - w.dx;
    var currX, currY := w.x1, w.y1;
    ghost var px := WalkPixels(w, doSmooth);
    ghost var done: seq<Point> := [];
    if w.dx > 0 {
      RowEnds(w.dx, w.dy);
    }

    while currX <= w.x2
      invariant w.x1 <= w.x2 ==> w.x1 <= currX <= w.x2 + 1
      invariant w.x1 > w.x2 ==> currX == w.x1
      invariant done == px[..currX - w.x1]
      invariant currX <= w.x2 ==> currY == ColumnY(w, currX - w.x1)
      invariant w.dx > 0 ==> P == Decision(w.dx, w.dy, currX - w.x1)
      invariant forall x, y :: InBuffer(buff, x, y) ==> buff[x, y] == PixelAfter(done, x, y, old(buff[x, y]))
    {
      var pt := Point(currX, currY, ColumnColor(w, doSmooth, currX));
      WalkPrefixStep(w, doSmooth, currX - w.x1);
      assert pt == px[currX - w.x1];
      label Before:
      DrawPoint(buff, pt);
      forall x, y | InBuffer(buff, x, y)
        ensures buff[x, y] == PixelAfter(done + [pt], x, y, old(buff[x, y]))
      {
        PaintStep(done, pt, x, y, old@Before(buff[x, y]), old(buff[x, y]), buff[x, y]);
      }
      done := done + [pt];
      if w.dx > 0 {
        WalkStep(w, currX - w.x1);
      }
      if P < 0 {
        P := P + 2 * w.dy;
      } else {
        P := P + 2 * (w.dy - w.dx);
        currY := currY + w.sy;
      }
      currX := currX + 1;
    }
    assert done == px;
  }

  /**
   * drawLine (Sketch.py:266-333).  Both end points lie in the buffer (the source
   * indexes its numpy buffer without a bounds check); drawing the points of
   * LinePixels(p1, p2, doSmooth) in order leaves there.
   */
  method DrawLine(buff: array2<Rgb>, p1: Point, p2: Point, doSmooth: bool)
    requires InBuffer(buff, p1.x, p1.y) && InBuffer(buff, p2.x, p2.y)
    modifies buff
    ensures forall x, y :: InBuffer(buff, x, y) ==>
              buff[x, y] == PixelAfter(LinePixels(p1, p2, doSmooth), x, y, old(buff[x, y]))
  {
    var x1, y1 := p1.x, p1.y;
    var x2, y2 := p2.x, p2.y;
    var c1, c2 := p1.color, p2.color;
    var dx := Abs(x2 - x1);
    var dy := Abs(y2 - y1);
    if dy > dx {
      x1, y1, x2, y2 := x2, y2, x1, y1;
      dx, dy := dy, dx;
      c1, c2 := c2, c1;
    }
    var sy := if y1 < y2 then 1 else -1;
    var w := Walk(x1, y1, x2, y2, c1, c2, dx, dy, sy);
    assert w == SetupLine(p1, p2);
    LineInBox(p1, p2, doSmooth);
    ghost var px := WalkPixels(w, doSmooth);
    assert px == LinePixels(p1, p2, doSmooth);
    forall k | 0 <= k < |px|
      ensures InBuffer(buff, px[k].x, px[k].y)
    {
    }
    WalkLine(buff, w, doSmooth);
  }
}
