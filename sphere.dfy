/**
 * DisplayableSphere.generate: a (stacks + 1) x (slices + 1) grid of vertices, 11 values each
 * (position, normal, colour, texture coordinates), and the triangle list that stitches
 * neighbouring grid rows together, two triangles per quad.
 */
module Sphere {
  import opened Colors
  import opened Vectors

  /** The arguments of generate: radius, number of stacks (phi samples - 1), slices (theta samples - 1), colour. */
  datatype Params = Params(radius: real, stacks: nat, slices: nat, color: Color)

  /**
   * The unit direction (cos phi cos theta, cos phi sin theta, sin phi) of grid vertex (i, j),
   * phi being the i-th and theta the j-th sample; the trigonometry itself is outside the model.
   */
  type Direction = (nat, nat) -> Vec3

  /** Vertices per stack row. */
  function RowWidth(p: Params): nat { p.slices + 1 }

  function VertexCount(p: Params): nat { (p.stacks + 1) * (p.slices + 1) }

  /** Position of grid vertex (i, j) in the vertex list: row-major over rows of RowWidth. */
  function GridIndex(p: Params, i: nat, j: nat): nat { i * RowWidth(p) + j }

  /**
   * The k-th of n + 1 evenly spaced samples of [0, 1], as linspace produces them; a single
   * sample (n = 0) is the start value.  u = theta / 2pi is Fraction(j, slices) and
   * v = (phi + pi/2) / pi is Fraction(i, stacks).
   */
  function Fraction(k: nat, n: nat): (r: real)
    ensures k <= n ==> InUnit(r)
    ensures k == 0 ==> r == 0.0
    ensures 0 < n && k == n ==> r == 1.0
    ensures 0 < n ==> r * n as real == k as real
  {
    if n == 0 then 0.0
    else
      DivSelf(n as real);
      if k <= n then FracUnit(k as real, n as real); k as real / n as real
      else k as real / n as real
  }

  /** The 11 values of grid vertex (i, j): x, y, z, nx, ny, nz, r, g, b, u, v. */
  function GridVertex(p: Params, dir: Direction, i: nat, j: nat): seq<real>
  {
    var d := dir(i, j);
    [p.radius * d.x, p.radius * d.y, p.radius * d.z, d.x, d.y, d.z,
     p.color.r, p.color.g, p.color.b, Fraction(j, p.slices), Fraction(i, p.stacks)]
  }

  /** Columns 0 .. n - 1 of row i: the inner (theta) loop after n steps. */
  function RowVertices(p: Params, dir: Direction, i: nat, n: nat): seq<real>
  {
    if n == 0 then [] else RowVertices(p, dir, i, n - 1) + GridVertex(p, dir, i, n - 1)
  }

  /** Rows 0 .. n - 1, each complete: the outer (phi) loop after n steps. */
  function GridVertices(p: Params, dir: Direction, n: nat): seq<real>
  {
    if n == 0 then [] else GridVertices(p, dir, n - 1) + RowVertices(p, dir, n - 1, RowWidth(p))
  }

  /** self.vertices after generate. */
  function SphereVertices(p: Params, dir: Direction): seq<real>
  {
    GridVertices(p, dir, p.stacks + 1)
  }

  /** The two triangles [p1, p3, p2] and [p2, p3, p4] of quad (i, j). */
  function Quad(p: Params, i: nat, j: nat): seq<int>
  {
    var width := RowWidth(p);
    var p1 := i * width + j;
    var p2 := p1 + 1;
    var p3 := (i + 1) * width + j;
    var p4 := p3 + 1;
    [p1, p3, p2, p2, p3, p4]
  }

  function QuadCount(p: Params): nat { p.stacks * p.slices }

  /** Quads (i, 0) .. (i, n - 1): the inner j loop after n steps. */
  function RowQuads(p: Params, i: nat, n: nat): seq<int>
  {
    if n == 0 then [] else RowQuads(p, i, n - 1) + Quad(p, i, n - 1)
  }

  /** Quad rows 0 .. n - 1, each complete: the outer i loop after n steps. */
  function GridQuads(p: Params, n: nat): seq<int>
  {
    if n == 0 then [] else GridQuads(p, n - 1) + RowQuads(p, n - 1, p.slices)
  }

  /** self.indices after generate. */
  function SphereIndices(p: Params): seq<int>
  {
    GridQuads(p, p.stacks)
  }

  // ---------------------------------------------------------------------------------------------
  // Row-major arithmetic

  /** A row-major position decodes back to its row and column. */
  lemma Decode(i: nat, j: nat, width: nat)
    requires j < width
    ensures (i * width + j) / width == i
    ensures (i * width + j) % width == j
  {
    var n := i * width + j;
    var q, r := n / width, n % width;
    assert n == q * width + r;
    var d := q - i;
    assert d * width == j - r;
    if d > 0 {
      MulLe(1, d, width);
      assert false;
    } else if d < 0 {
      MulLe(d, -1, width);
      assert false;
    }
  }

  lemma MulLe(a: int, b: int, w: nat)
    requires a <= b
    ensures a * w <= b * w
  {
  }

  /** Row i < rows and column j < width place a row-major position below rows * width. */
  lemma Below(i: nat, j: nat, width: nat, rows: nat)
    requires i < rows && j < width
    ensures i * width + j < rows * width
  {
    assert i * width + j < (i + 1) * width;
    assert (i + 1) * width <= rows * width;
  }

  /** Every position below rows * width lies in some row i < rows. */
  lemma InRow(k: nat, width: nat, rows: nat)
    requires 0 < width && k < rows * width
    ensures k / width < rows && k == (k / width) * width + k % width
  {
    var i := k / width;
    if i >= rows {
      assert false;
    }
  }

  /** Position m of a list of 6 values per quad, rows of `slices` quads, is value r of quad (i, j). */
  lemma QuadPosition(m: nat, slices: nat, stacks: nat) returns (i: nat, j: nat, r: nat)
    requires m < 6 * (stacks * slices)
    ensures i < stacks && j < slices && r < 6 && m == 6 * (i * slices + j) + r
  {
    var q := m / 6;
    r := m % 6;
    InRow(m, 6, stacks * slices);
    InRow(q, slices, stacks);
    i, j := q / slices, q % slices;
  }

  // ---------------------------------------------------------------------------------------------
  // Vertex list

  /** A row of n vertices holds 11 n values, column j at 11 j .. 11 j + 10. */
  lemma {:induction false} RowVerticesAt(p: Params, dir: Direction, i: nat, n: nat, j: nat, f: nat)
    requires j < n && f < 11
    ensures |RowVertices(p, dir, i, n)| == 11 * n
    ensures RowVertices(p, dir, i, n)[11 * j + f] == GridVertex(p, dir, i, j)[f]
  {
    if j < n - 1 {
      RowVerticesAt(p, dir, i, n - 1, j, f);
    } else if n > 1 {
      RowVerticesAt(p, dir, i, n - 1, 0, 0);
    }
  }

  /** n complete rows hold 11 n (slices + 1) values. */
  lemma {:induction false} GridVerticesLength(p: Params, dir: Direction, n: nat)
    ensures |GridVertices(p, dir, n)| == 11 * (n * RowWidth(p))
  {
    if n > 0 {
      GridVerticesLength(p, dir, n - 1);
      RowVerticesAt(p, dir, n - 1, RowWidth(p), 0, 0);
      assert (n - 1) * RowWidth(p) + RowWidth(p) == n * RowWidth(p);
    }
  }

  /** Value f of grid vertex (i, j) sits at 11 (i (slices + 1) + j) + f. */
  lemma {:induction false} GridVerticesAt(p: Params, dir: Direction, n: nat, i: nat, j: nat, f: nat)
    requires i < n && j < RowWidth(p) && f < 11
    ensures 11 * GridIndex(p, i, j) + f < |GridVertices(p, dir, n)|
    ensures GridVertices(p, dir, n)[11 * GridIndex(p, i, j) + f] == GridVertex(p, dir, i, j)[f]
  {
    var width := RowWidth(p);
    GridVerticesLength(p, dir, n);
    GridVerticesLength(p, dir, n - 1);
    Below(i, j, width, n);
    if i < n - 1 {
      GridVerticesAt(p, dir, n - 1, i, j, f);
    } else {
      RowVerticesAt(p, dir, i, width, j, f);
    }
  }

  /** generate emits 11 * (stacks + 1) * (slices + 1) values. */
  lemma SphereVerticesLength(p: Params, dir: Direction)
    ensures |SphereVertices(p, dir)| == 11 * ((p.stacks + 1) * (p.slices + 1))
  {
    GridVerticesLength(p, dir, p.stacks + 1);
  }

  /**
   * Grid vertex (i, j) is the GridIndex(i, j)-th vertex of the list: its 11 values are the
   * radius-scaled direction as position, the direction as normal, the colour, and
   * u = j / slices, v = i / stacks, both in [0, 1].
   */
  lemma SphereGridVertex(p: Params, dir: Direction, i: nat, j: nat)
    requires i <= p.stacks && j <= p.slices
    ensures GridIndex(p, i, j) < VertexCount(p)
    ensures 11 * GridIndex(p, i, j) + 11 <= |SphereVertices(p, dir)|
    ensures SphereVertices(p, dir)[11 * GridIndex(p, i, j) ..][..11] == GridVertex(p, dir, i, j)
  {
    var k := GridIndex(p, i, j);
    Below(i, j, RowWidth(p), p.stacks + 1);
    var all := SphereVertices(p, dir);
    GridVerticesAt(p, dir, p.stacks + 1, i, j, 10);
    forall f | 0 <= f < 11
      ensures all[11 * k ..][..11][f] == GridVertex(p, dir, i, j)[f]
    {
      GridVerticesAt(p, dir, p.stacks + 1, i, j, f);
    }
  }

  /** Every vertex carries the colour in columns 6-8 and texture coordinates in [0, 1] in columns 9-10. */
  lemma SphereColumns(p: Params, dir: Direction, k: nat)
    requires k < VertexCount(p)
    ensures 11 * k + 10 < |SphereVertices(p, dir)|
    ensures var all := SphereVertices(p, dir);
            all[11 * k + 6] == p.color.r && all[11 * k + 7] == p.color.g && all[11 * k + 8] == p.color.b
            && InUnit(all[11 * k + 9]) && InUnit(all[11 * k + 10])
  {
    var width := RowWidth(p);
    InRow(k, width, p.stacks + 1);
    var i, j := k / width, k % width;
    SphereGridVertex(p, dir, i, j);
    var v := SphereVertices(p, dir)[11 * k ..][..11];
    assert v == GridVertex(p, dir, i, j);
    assert v[6] == SphereVertices(p, dir)[11 * k + 6] && v[7] == SphereVertices(p, dir)[11 * k + 7];
    assert v[8] == SphereVertices(p, dir)[11 * k + 8] && v[9] == SphereVertices(p, dir)[11 * k + 9];
    assert v[10] == SphereVertices(p, dir)[11 * k + 10];
  }

  // ---------------------------------------------------------------------------------------------
  // Index list

  /** A row of n quads holds 6 n indices, quad j at 6 j .. 6 j + 5. */
  lemma {:induction false} RowQuadsAt(p: Params, i: nat, n: nat, j: nat, m: nat)
    requires j < n && m < 6
    ensures |RowQuads(p, i, n)| == 6 * n
    ensures RowQuads(p, i, n)[6 * j + m] == Quad(p, i, j)[m]
  {
    if j < n - 1 {
      RowQuadsAt(p, i, n - 1, j, m);
    } else if n > 1 {
      RowQuadsAt(p, i, n - 1, 0, 0);
    }
  }

  /** n complete quad rows hold 6 n slices indices. */
  lemma {:induction false} GridQuadsLength(p: Params, n: nat)
    ensures |GridQuads(p, n)| == 6 * (n * p.slices)
  {
    if n > 0 {
      GridQuadsLength(p, n - 1);
      if p.slices > 0 {
        RowQuadsAt(p, n - 1, p.slices, 0, 0);
      }
      assert (n - 1) * p.slices + p.slices == n * p.slices;
    }
  }

  /** Index m of quad (i, j) sits at 6 (i slices + j) + m. */
  lemma {:induction false} GridQuadsAt(p: Params, n: nat, i: nat, j: nat, m: nat)
    requires i < n && j < p.slices && m < 6
    ensures 6 * (i * p.slices + j) + m < |GridQuads(p, n)|
    ensures GridQuads(p, n)[6 * (i * p.slices + j) + m] == Quad(p, i, j)[m]
  {
    GridQuadsLength(p, n);
    GridQuadsLength(p, n - 1);
    Below(i, j, p.slices, n);
    if i < n - 1 {
      GridQuadsAt(p, n - 1, i, j, m);
    } else {
      RowQuadsAt(p, i, p.slices, j, m);
    }
  }

  /** generate emits 6 * stacks * slices indices. */
  lemma SphereIndicesLength(p: Params)
    ensures |SphereIndices(p)| == 6 * (p.stacks * p.slices)
  {
    GridQuadsLength(p, p.stacks);
  }

  /**
   * Quad (i, j) occupies positions 6 (i * slices + j) .. + 5 with [p1, p3, p2, p2, p3, p4],
   * where p1, p2 are grid vertices (i, j), (i, j + 1) and p3, p4 are (i + 1, j), (i + 1, j + 1):
   * the quad joins neighbouring vertices of two consecutive rows, all of them existing vertices.
   */
  lemma SphereQuad(p: Params, i: nat, j: nat)
    requires i < p.stacks && j < p.slices
    ensures 6 * (i * p.slices + j) + 6 <= |SphereIndices(p)|
    ensures SphereIndices(p)[6 * (i * p.slices + j) ..][..6] ==
            [GridIndex(p, i, j), GridIndex(p, i + 1, j), GridIndex(p, i, j + 1),
             GridIndex(p, i, j + 1), GridIndex(p, i + 1, j), GridIndex(p, i + 1, j + 1)]
    ensures GridIndex(p, i + 1, j + 1) < VertexCount(p)
  {
    var q := i * p.slices + j;
    var all := SphereIndices(p);
    GridQuadsAt(p, p.stacks, i, j, 5);
    forall m | 0 <= m < 6
      ensures all[6 * q ..][..6][m] == Quad(p, i, j)[m]
    {
      GridQuadsAt(p, p.stacks, i, j, m);
    }
    Below(i + 1, j + 1, RowWidth(p), p.stacks + 1);
  }

  /** The six indices of quad (i, j), i < stacks and j < slices, name existing vertices. */
  lemma QuadInRange(p: Params, i: nat, j: nat)
    requires i < p.stacks && j < p.slices
    ensures forall m :: 0 <= m < 6 ==> 0 <= Quad(p, i, j)[m] < VertexCount(p)
  {
    var width := RowWidth(p);
    assert (i + 1) * width == i * width + width;
    Below(i + 1, j + 1, width, p.stacks + 1);
  }

  /** Every index names an existing vertex: 0 <= index < (stacks + 1) * (slices + 1). */
  lemma SphereIndexInRange(p: Params, m: nat)
    requires m < |SphereIndices(p)|
    ensures 0 <= SphereIndices(p)[m] < VertexCount(p)
  {
    GridQuadsLength(p, p.stacks);
    var i, j, r := QuadPosition(m, p.slices, p.stacks);
    GridQuadsAt(p, p.stacks, i, j, r);
    QuadInRange(p, i, j);
  }

  // ---------------------------------------------------------------------------------------------
  // The generating loops

  /** The inner (theta) loop for row i: one grid vertex per column j = 0 .. slices. */
  method BuildRow(p: Params, dir: Direction, i: nat) returns (row: seq<real>)
    ensures row == RowVertices(p, dir, i, RowWidth(p))
  {
    row := [];
    for j := 0 to RowWidth(p)
      invariant row == RowVertices(p, dir, i, j)
    {
      row := row + GridVertex(p, dir, i, j);
    }
  }

  /** The phi / theta loop nest: one grid vertex per (i, j), row by row. */
  method BuildVertices(p: Params, dir: Direction) returns (vertex: seq<real>)
    ensures vertex == SphereVertices(p, dir)
  {
    vertex := [];
    for i := 0 to p.stacks + 1
      invariant vertex == GridVertices(p, dir, i)
    {
      var row := BuildRow(p, dir, i);
      vertex := vertex + row;
    }
  }

  /** The i / j loop nest: the two triangles of each quad, quad by quad. */
  method BuildIndices(p: Params) returns (tris: seq<int>)
    ensures tris == SphereIndices(p)
  {
    var width := p.slices + 1;
    tris := [];
    var i := 0;
    while i < p.stacks
      invariant 0 <= i <= p.stacks
      invariant tris == GridQuads(p, i)
    {
      var j := 0;
      while j < p.slices
        invariant 0 <= j <= p.slices
        invariant tris == GridQuads(p, i) + RowQuads(p, i, j)
      {
        var p1 := i * width + j;
        var p2 := p1 + 1;
        var p3 := (i + 1) * width + j;
        var p4 := p3 + 1;
        tris := tris + [p1, p3, p2];
        tris := tris + [p2, p3, p4];
        j := j + 1;
      }
      i := i + 1;
    }
  }

  class DisplayableSphere {
    var radius: real
    var stacks: nat
    var slices: nat
    var color: Color
    var vertices: seq<real>
    var indices: seq<int>

    /** The arguments generate recorded. */
    function Args(): Params
      reads this
    {
      Params(radius, stacks, slices, color)
    }

    /** generate: records the arguments and stores the vertex and index lists they determine. */
    method Generate(radius: real, stacks: nat, slices: nat, color: Color, dir: Direction)
      modifies this
      ensures this.radius == radius && this.stacks == stacks && this.slices == slices && this.color == color
      ensures vertices == SphereVertices(Args(), dir)
      ensures indices == SphereIndices(Args())
    {
      this.radius := radius;
      this.stacks := stacks;
      this.slices := slices;
      this.color := color;
      var p := Params(radius, stacks, slices, color);
      var vertex := BuildVertices(p, dir);
      var tris := BuildIndices(p);
      vertices := vertex;
      indices := tris;
    }
  }
}
