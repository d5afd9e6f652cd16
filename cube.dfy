/**
 * DisplayableCube.generate: 6 faces x 4 corners = 24 vertices of 11 values each (position,
 * outward normal, colour, texture coordinates) and two triangles per face.
 */
module Cube {
  import opened Wrappers
  import opened Colors
  import opened Vectors

  /** The arguments of generate; a missing colour draws white. */
  datatype Params = Params(length: real, width: real, height: real, color: Option<Color>)

  /** One entry of the faces table: the outward normal and the four corners in winding order. */
  datatype Face = Face(n: Vec3, v: seq<Vec3>)

  /** The vertex colour: (1, 1, 1) when no colour is given. */
  function VertexColor(c: Option<Color>): (r: Color)
    ensures c == None ==> r == Color(1.0, 1.0, 1.0)
    ensures c.Some? ==> r == c.value
  {
    match c
    case None => Color(1.0, 1.0, 1.0)
    case Some(rgb) => rgb
  }

  /** The faces table for half sizes hl, hw, hh: front, back, left, right, top, bottom. */
  function Faces(p: Params): (faces: seq<Face>)
    ensures |faces| == 6 && forall i :: 0 <= i < 6 ==> |faces[i].v| == 4
  {
    var hl, hw, hh := p.length / 2.0, p.width / 2.0, p.height / 2.0;
    [ Face(Vec3(0.0, 0.0, 1.0),
           [Vec3(-hl, -hw, hh), Vec3(hl, -hw, hh), Vec3(hl, hw, hh), Vec3(-hl, hw, hh)]),
      Face(Vec3(0.0, 0.0, -1.0),
           [Vec3(hl, -hw, -hh), Vec3(-hl, -hw, -hh), Vec3(-hl, hw, -hh), Vec3(hl, hw, -hh)]),
      Face(Vec3(-1.0, 0.0, 0.0),
           [Vec3(-hl, -hw, -hh), Vec3(-hl, -hw, hh), Vec3(-hl, hw, hh), Vec3(-hl, hw, -hh)]),
      Face(Vec3(1.0, 0.0, 0.0),
           [Vec3(hl, -hw, hh), Vec3(hl, -hw, -hh), Vec3(hl, hw, -hh), Vec3(hl, hw, hh)]),
      Face(Vec3(0.0, 1.0, 0.0),
           [Vec3(-hl, hw, hh), Vec3(hl, hw, hh), Vec3(hl, hw, -hh), Vec3(-hl, hw, -hh)]),
      Face(Vec3(0.0, -1.0, 0.0),
           [Vec3(-hl, -hw, -hh), Vec3(hl, -hw, -hh), Vec3(hl, -hw, hh), Vec3(-hl, -hw, hh)]) ]
  }

  /** Texture coordinates of the four corners of every face. */
  const TexCoords: seq<(real, real)> := [(0.0, 0.0), (1.0, 0.0), (1.0, 1.0), (0.0, 1.0)]

  /** The 11 values of corner j of a face: x, y, z, nx, ny, nz, r, g, b, u, v. */
  function CornerVertex(face: Face, j: nat, c: Color): seq<real>
    requires j < 4 && |face.v| == 4
  {
    var pos := face.v[j];
    [pos.x, pos.y, pos.z, face.n.x, face.n.y, face.n.z, c.r, c.g, c.b, TexCoords[j].0, TexCoords[j].1]
  }

  /** Corners 0 .. n - 1 of a face: the inner loop after n steps. */
  function FaceVertices(face: Face, c: Color, n: nat): seq<real>
    requires n <= 4 && |face.v| == 4
  {
    if n == 0 then [] else FaceVertices(face, c, n - 1) + CornerVertex(face, n - 1, c)
  }

  /** Faces 0 .. n - 1, each complete: the outer loop's vertex list after n steps. */
  function FacesVertices(p: Params, n: nat): seq<real>
    requires n <= 6
  {
    if n == 0 then [] else FacesVertices(p, n - 1) + FaceVertices(Faces(p)[n - 1], VertexColor(p.color), 4)
  }

  /** Number of entries in the faces table. */
  function FaceCount(): nat { 6 }

  /** self.vertices after generate. */
  function CubeVertices(p: Params): seq<real>
  {
    FacesVertices(p, FaceCount())
  }

  /** The two triangles 0-1-2 and 0-2-3 of face i, offset by its first vertex 4 i. */
  function FaceIndices(i: nat): seq<int>
  {
    var offset := i * 4;
    [offset + 0, offset + 1, offset + 2, offset + 0, offset + 2, offset + 3]
  }

  /** Faces 0 .. n - 1: the outer loop's index list after n steps. */
  function FacesIndices(n: nat): seq<int>
  {
    if n == 0 then [] else FacesIndices(n - 1) + FaceIndices(n - 1)
  }

  /** self.indices after generate. */
  function CubeIndices(): seq<int>
  {
    FacesIndices(FaceCount())
  }

  // ---------------------------------------------------------------------------------------------
  // Layout

  /** A face's list holds 11 values per corner. */
  lemma {:induction false} FaceVerticesLength(face: Face, c: Color, n: nat)
    requires n <= 4 && |face.v| == 4
    ensures |FaceVertices(face, c, n)| == 11 * n
  {
    if n > 0 {
      FaceVerticesLength(face, c, n - 1);
    }
  }

  /** Corner j occupies 11 j .. 11 j + 10 of the face's list. */
  lemma {:induction false} FaceVerticesSlice(face: Face, c: Color, n: nat, j: nat)
    requires n <= 4 && |face.v| == 4 && j < n
    ensures 11 * j + 11 <= |FaceVertices(face, c, n)|
    ensures FaceVertices(face, c, n)[11 * j .. 11 * j + 11] == CornerVertex(face, j, c)
  {
    FaceVerticesLength(face, c, n);
    FaceVerticesLength(face, c, n - 1);
    if j < n - 1 {
      FaceVerticesSlice(face, c, n - 1, j);
      assert FaceVertices(face, c, n)[11 * j .. 11 * j + 11] == FaceVertices(face, c, n - 1)[11 * j .. 11 * j + 11];
    }
  }

  /** n complete faces hold 44 n values. */
  lemma {:induction false} FacesVerticesLength(p: Params, n: nat)
    requires n <= 6
    ensures |FacesVertices(p, n)| == 44 * n
  {
    if n > 0 {
      FacesVerticesLength(p, n - 1);
      FaceVerticesLength(Faces(p)[n - 1], VertexColor(p.color), 4);
    }
  }

  /** Corner j of face i occupies 11 (4 i + j) .. + 10. */
  lemma {:induction false} FacesVerticesSlice(p: Params, n: nat, i: nat, j: nat)
    requires n <= 6 && i < n && j < 4
    ensures 11 * (4 * i + j) + 11 <= |FacesVertices(p, n)|
    ensures FacesVertices(p, n)[11 * (4 * i + j) .. 11 * (4 * i + j) + 11]
            == CornerVertex(Faces(p)[i], j, VertexColor(p.color))
  {
    var k := 11 * (4 * i + j);
    FacesVerticesLength(p, n);
    FacesVerticesLength(p, n - 1);
    if i < n - 1 {
      FacesVerticesSlice(p, n - 1, i, j);
      assert FacesVertices(p, n)[k .. k + 11] == FacesVertices(p, n - 1)[k .. k + 11];
    } else {
      var face, c := Faces(p)[i], VertexColor(p.color);
      FaceVerticesSlice(face, c, 4, j);
      assert FacesVertices(p, n)[k .. k + 11] == FaceVertices(face, c, 4)[11 * j .. 11 * j + 11];
    }
  }

  /** Six indices per face. */
  lemma {:induction false} FacesIndicesLength(n: nat)
    ensures |FacesIndices(n)| == 6 * n
  {
    if n > 0 {
      FacesIndicesLength(n - 1);
    }
  }

  /** Face i's indices occupy 6 i .. 6 i + 5. */
  lemma {:induction false} FacesIndicesSlice(n: nat, i: nat)
    requires i < n
    ensures 6 * i + 6 <= |FacesIndices(n)|
    ensures FacesIndices(n)[6 * i .. 6 * i + 6] == FaceIndices(i)
  {
    FacesIndicesLength(n);
    FacesIndicesLength(n - 1);
    if i < n - 1 {
      FacesIndicesSlice(n - 1, i);
      assert FacesIndices(n)[6 * i .. 6 * i + 6] == FacesIndices(n - 1)[6 * i .. 6 * i + 6];
    }
  }

  /** generate emits 24 vertices (264 values) and 36 indices. */
  lemma CubeLengths(p: Params)
    ensures |CubeVertices(p)| == 264
    ensures |CubeIndices()| == 36
  {
    FacesVerticesLength(p, FaceCount());
    FacesIndicesLength(FaceCount());
  }

  /**
   * Corner j of face i is vertex 4 i + j: its position is the table's corner, its normal the
   * face's normal, its colour the given one (white without one), its texture coordinates
   * (0, 0), (1, 0), (1, 1), (0, 1) for j = 0 .. 3.
   */
  lemma CubeVertex(p: Params, i: nat, j: nat)
    requires i < 6 && j < 4
    ensures 11 * (4 * i + j) + 11 <= |CubeVertices(p)|
    ensures var vx := CubeVertices(p)[11 * (4 * i + j) .. 11 * (4 * i + j) + 11];
            var face := Faces(p)[i];
            var c := VertexColor(p.color);
            Vec3(vx[0], vx[1], vx[2]) == face.v[j] && Vec3(vx[3], vx[4], vx[5]) == face.n
            && Color(vx[6], vx[7], vx[8]) == c && (vx[9], vx[10]) == TexCoords[j]
  {
    FacesVerticesSlice(p, FaceCount(), i, j);
  }

  /** Face i contributes triangles [4i, 4i+1, 4i+2] and [4i, 4i+2, 4i+3] at positions 6 i .. 6 i + 5. */
  lemma CubeFace(i: nat)
    requires i < 6
    ensures CubeIndices()[6 * i .. 6 * i + 6] == [4 * i, 4 * i + 1, 4 * i + 2, 4 * i, 4 * i + 2, 4 * i + 3]
  {
    FacesIndicesSlice(FaceCount(), i);
  }

  /** Every index names one of the four vertices of its own face, hence one of the 24. */
  lemma CubeIndexInFace(m: nat)
    requires m < 36
    ensures 4 * (m / 6) <= CubeIndices()[m] < 4 * (m / 6) + 4
    ensures 0 <= CubeIndices()[m] < 24
  {
    var i := m / 6;
    FacesIndicesSlice(FaceCount(), i);
    assert CubeIndices()[m] == CubeIndices()[6 * i .. 6 * i + 6][m - 6 * i];
  }

  /** Every position coordinate is +-length/2 in x, +-width/2 in y, +-height/2 in z. */
  lemma CubeCorners(p: Params, i: nat, j: nat)
    requires i < 6 && j < 4
    ensures var pos := Faces(p)[i].v[j];
            (pos.x == p.length / 2.0 || pos.x == -(p.length / 2.0))
            && (pos.y == p.width / 2.0 || pos.y == -(p.width / 2.0))
            && (pos.z == p.height / 2.0 || pos.z == -(p.height / 2.0))
  {
  }

  /** Each corner lies on its face's plane: along the normal it sits at the half size of that axis. */
  lemma CubeFacePlane(p: Params, i: nat, j: nat)
    requires i < 6 && j < 4
    ensures var face := Faces(p)[i];
            Dot(face.n, face.v[j]) ==
              (if face.n.x != 0.0 then p.length / 2.0 else if face.n.y != 0.0 then p.width / 2.0 else p.height / 2.0)
  {
  }

  /**
   * Both triangles of every face wind counter-clockwise seen from outside: for positive sizes
   * the cross product of their edges is a positive multiple of the face's normal.
   */
  lemma CubeWinding(p: Params, i: nat, second: bool)
    requires i < 6
    requires p.length > 0.0 && p.width > 0.0 && p.height > 0.0
    ensures var face := Faces(p)[i];
            var a, b, c := face.v[0], face.v[if second then 2 else 1], face.v[if second then 3 else 2];
            exists k: real :: k > 0.0 && Cross(Sub(b, a), Sub(c, a)) == Scale(k, face.n)
  {
    var hl, hw, hh := p.length / 2.0, p.width / 2.0, p.height / 2.0;
    var k := if i < 2 then 4.0 * hl * hw else if i < 4 then 4.0 * hw * hh else 4.0 * hl * hh;
    assert k > 0.0;
    var face := Faces(p)[i];
    var a, b, c := face.v[0], face.v[if second then 2 else 1], face.v[if second then 3 else 2];
    assert Cross(Sub(b, a), Sub(c, a)) == Scale(k, face.n);
  }

  // ---------------------------------------------------------------------------------------------
  // The generating loop

  /** The inner loop of generate: appends the four corner vertices of one face. */
  method AppendCorners(vertexList: seq<real>, face: Face, c: Color) returns (extended: seq<real>)
    requires |face.v| == 4
    ensures extended == vertexList + FaceVertices(face, c, 4)
  {
    extended := vertexList;
    var j := 0;
    while j < |face.v|
      invariant 0 <= j <= 4
      invariant extended == vertexList + FaceVertices(face, c, j)
    {
      var pos := face.v[j];
      var (u, v) := TexCoords[j];
      extended := extended + [pos.x, pos.y, pos.z, face.n.x, face.n.y, face.n.z, c.r, c.g, c.b, u, v];
      j := j + 1;
    }
  }

  /** The two extends after the inner loop: triangles 0-1-2 and 0-2-3 of face i. */
  method AppendTriangles(indices: seq<int>, i: nat) returns (extended: seq<int>)
    ensures extended == indices + FaceIndices(i)
  {
    var offset := i * 4;
    extended := indices + [offset + 0, offset + 1, offset + 2];
    extended := extended + [offset + 0, offset + 2, offset + 3];
  }

  /** The loop over faces: four corner vertices each, then the face's two triangles. */
  method BuildCube(p: Params) returns (vertexList: seq<real>, indices: seq<int>)
    ensures vertexList == CubeVertices(p)
    ensures indices == CubeIndices()
  {
    var c := VertexColor(p.color);
    var faces := Faces(p);
    vertexList := [];
    indices := [];
    var i := 0;
    while i < |faces|
      invariant 0 <= i <= |faces|
      invariant vertexList == FacesVertices(p, i)
      invariant indices == FacesIndices(i)
    {
      vertexList := AppendCorners(vertexList, faces[i], c);
      indices := AppendTriangles(indices, i);
      i := i + 1;
    }
  }

  class DisplayableCube {
    var length: real
    var width: real
    var height: real
    var color: Option<Color>
    var vertices: seq<real>
    var indices: seq<int>

    /** The arguments generate recorded. */
    function Args(): Params
      reads this
    {
      Params(length, width, height, color)
    }

    /** generate: records the arguments and stores the vertex and index lists they determine. */
    method Generate(length: real, width: real, height: real, color: Option<Color>)
      modifies this
      ensures this.length == length && this.width == width && this.height == height && this.color == color
      ensures vertices == CubeVertices(Args())
      ensures indices == CubeIndices()
    {
      this.length := length;
      this.width := width;
      this.height := height;
      this.color := color;
      var vertexList, tris := BuildCube(Params(length, width, height, color));
      vertices := vertexList;
      indices := tris;
    }
  }
}
