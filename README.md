# Rasteriser, mesh generators and shader-program state

This project models four parts of a course graphics repository and proves properties of each.

- **The software rasteriser of `PA1_Fall2025/Sketch.py`.**
  - `drawPoint` stores one colour in a pixel buffer.
  - `drawLine` is a Bresenham walk over x with flat or interpolated colour.
  - `drawTriangle` sorts its vertices by row and derives per-vertex texture coordinates from the bounding box. It then scan-fills a flat-bottom half and/or a flat-top half, with flat, smooth or bilinear-textured colour. Its nested helpers `linterp`, `linterp_color`, `bilinear_text`, `vert_uv`, `fill_flat_bottom` and `fill_flat_top` are modelled too.
  - The buffer is a Dafny `array2` changed in place. Each drawing method is proved to leave every pixel as drawing the points of a specification function, in order, would leave it. Separate lemmas then state what those points are: which columns and rows, where they end, which colours, what stays inside the bounding box or the unit colour range.
  - Where the Dafny comments cite `Sketch.py:<line>`, they mean `PA1_Fall2025/Sketch.py`.
- **`DisplayableSphere.generate`** builds a (stacks + 1) x (slices + 1) grid of 11-value vertices and two triangles per grid quad.
- **`DisplayableCube.generate`** builds 6 faces of 4 vertices each and two triangles per face.
  - Both generators are loops that extend Python lists. They are modelled as methods with loop invariants, proved equal to specification functions. Lemmas then state lengths, layouts and index ranges of those functions, plus the cube's geometry.
  - Each class's `generate` records its arguments in fields, modelled as a Dafny class.
- **`GLProgram`** in `Programming/PA4_Def/GLProgram.py`:
  - the fragment-shader routing flag built from keywords of a lower-cased string;
  - the `ready` flag that `compile` sets and `use` checks;
  - the argument checks of `set_vss`, `set_fss`, `setMat2/3/4`, `setVec2/3/4`, `setBool` and `setInt`.

  Every OpenGL call is outside the model. Where a GL outcome decides a branch (shader compile result, link status), it is a parameter.

Modelling conventions:
- Colours and interpolation use `real`. The arithmetic is affine, so reals are an exact idealisation of the Python floats.
- Python's `int()` on a float truncates toward zero (`Canvas.Trunc`). `math.ceil` and `math.floor` are modelled through `.Floor` (`Canvas.Ceil`).
- The uint8 store is the truncating conversion followed by the 8-bit wrap (`Canvas.ToByte`). On [0, 1] that is `(c * 255).Floor`.
- The routing flag is a `bv16`. Python strings are `seq<char>`. Python's `str.lower` is modelled on ASCII letters.

Two behaviours of the code are kept as written:
- **Steep lines.** A steep line (dy > dx) swaps end points, colours and the two deltas. It does not transpose the axes, so the walk is always over x. After the swap, a line whose x1 > x2 draws nothing.
- **Missing texture.** When `doTexture` is set but there is no texture, colouring falls back to smooth or flat colour. No error is raised.

## Model

| member | source | states |
|---|---|---|
| Canvas.Trunc | PA1_Fall2025/Sketch.py:544 | `int()` of a float: the floor for non-negative values, and for negative values the integer within 1 above, i.e. truncation toward zero |
| Canvas.Ceil | PA1_Fall2025/Sketch.py:461 | `int(math.ceil(r))` is the least integer at or above r |
| Canvas.ToByte | PA1_Fall2025/Sketch.py:261-264 | the uint8 value stored for a channel is in [0, 256) and equals floor(c * 255) for c in [0, 1] |
| Canvas.DrawPoint | PA1_Fall2025/Sketch.py:249-264 | writes the three encoded channels of the point's colour at (x, y) and leaves every other pixel unchanged |
| Canvas.PixelAfterAppend | PA1_Fall2025/Sketch.py:249-264 | drawing the points of a and then those of b leaves each pixel as drawing a + b does |
| Canvas.PixelAfterHit | PA1_Fall2025/Sketch.py:249-264 | a pixel shows the colour of the last point drawn on it |
| Canvas.PixelAfterMiss | PA1_Fall2025/Sketch.py:249-264 | a pixel no point lands on keeps its previous value |
| Colors.Linterp | PA1_Fall2025/Sketch.py:384-385 | `linterp` stays between its end points for t in [0, 1], gives p0 at t = 0 and p1 at t = 1, and is constant on equal end points |
| Colors.LinterpColor | PA1_Fall2025/Sketch.py:388-393 | channel-wise `linterp`: keeps unit colours unit for t in [0, 1], gives c0 at t = 0 and c1 at t = 1 |
| Textures.Clamp | PA1_Fall2025/Sketch.py:402-405 | `max(0, min(n - 1, i))` lies in [0, n), is i inside the range, 0 below and n - 1 above |
| Textures.CornersAt | PA1_Fall2025/Sketch.py:398-409 | the four texel indices of `bilinear_text` lie inside the texture, and each blend weight is in [0, 1] or its two texels coincide |
| Textures.Bilinear | PA1_Fall2025/Sketch.py:396-420 | bilinear_text: blends the four clamped neighbouring texels horizontally, then vertically; BilinearAtTexel and BilinearUnit state its value on texels and its range |
| Textures.BilinearAtTexel | PA1_Fall2025/Sketch.py:396-420 | at integer in-range (u, v), `bilinear_text` returns exactly that texel's colour |
| Textures.BilinearUnit | PA1_Fall2025/Sketch.py:396-420 | a texture of unit colours yields a unit colour at every (u, v) |
| Line.SetupLine | PA1_Fall2025/Sketch.py:290-308 | after set-up dy <= dx and sy points from y1 toward y2; a steep line has its end points, colours and deltas exchanged, any other line keeps them |
| Line.ColumnColor | PA1_Fall2025/Sketch.py:314-324 | the colour given to column x: linterp_color at t = (x - x1) / dx when smoothing, else the colour of the nearer end point; SmoothIsLinterp, FlatLineColors and ColumnColorUnit state it |
| Line.LinePixels | PA1_Fall2025/Sketch.py:266-333 | the points drawLine draws, in order, after the set-up; LineColumns, LineConnected, LineEndpoints and LineInBox state their shape and DrawLine is proved to draw them |
| Line.SmoothIsLinterp | PA1_Fall2025/Sketch.py:317-322 | the smooth column colour is `linterp_color(c1, c2, (x - x1) / dx)` |
| Line.DecisionStep | PA1_Fall2025/Sketch.py:328-332 | a negative decision variable keeps the row and adds 2dy; otherwise the row advances by one and 2(dy - dx) is added |
| Line.WalkStep | PA1_Fall2025/Sketch.py:326-332 | between consecutive columns `curr_y` stays or moves by sy, exactly as the decision variable says |
| Line.RowEnds | PA1_Fall2025/Sketch.py:312-332 | the Bresenham row starts at offset 0 and reaches offset dy at column dx, so the walk ends on y2 |
| Line.RowMonotone | PA1_Fall2025/Sketch.py:328-332 | the row offset never decreases along the walk |
| Line.LineColumns | PA1_Fall2025/Sketch.py:315-326 | one pixel per column x1, x1 + 1, ..., x2 in increasing order; none at all when x1 > x2 after the set-up |
| Line.LineConnected | PA1_Fall2025/Sketch.py:326-332 | consecutive pixels are one column apart and their rows differ by 0 or by sy |
| Line.LineEndpoints | PA1_Fall2025/Sketch.py:308-332 | a non-steep line with x1 <= x2 has x2 - x1 + 1 pixels, the first at (x1, y1) and the last at (x2, y2) |
| Line.LineInBox | PA1_Fall2025/Sketch.py:315-332 | every pixel lies within the x and y ranges of the two end points |
| Line.SmoothLineColors | PA1_Fall2025/Sketch.py:317-322 | with doSmooth and dx != 0, pixel k gets (1 - t)c1 + t c2 with t = k / dx, so the first pixel has exactly c1 |
| Line.SmoothLineLastColor | PA1_Fall2025/Sketch.py:317-322 | a smooth non-steep line with x1 < x2 ends on p2's colour |
| Line.FlatLineColors | PA1_Fall2025/Sketch.py:323-324 | without interpolation a pixel gets c1 only when strictly nearer x1 than x2, else c2 |
| Line.ZeroLengthLine | PA1_Fall2025/Sketch.py:315-324 | a line from a point to itself writes that one pixel, in p2's colour |
| Line.ColumnColorUnit | PA1_Fall2025/Sketch.py:317-324 | a column colour between unit end colours is a unit colour |
| Line.LineColorsUnit | PA1_Fall2025/Sketch.py:317-324 | every pixel of a line between unit colours has a unit colour |
| Line.WalkLine | PA1_Fall2025/Sketch.py:311-333 | the column loop, updating P and curr_y, leaves the buffer as drawing WalkPixels in order |
| Line.DrawLine | PA1_Fall2025/Sketch.py:266-333 | drawLine leaves the buffer as drawing LinePixels in order |
| Triangle.SortByY | PA1_Fall2025/Sketch.py:371 | the sorted vertices are ordered by row and are a permutation of the three inputs |
| Triangle.SortByYStable | PA1_Fall2025/Sketch.py:371 | each vertex lands where Python's stable sort puts it: after every vertex on a smaller row and after earlier vertices on its own row |
| Triangle.BoundingBox | PA1_Fall2025/Sketch.py:374-377 | the box holds all three vertices and each bound is one of the vertices' coordinates |
| Triangle.AtLeastOne | PA1_Fall2025/Sketch.py:380-381 | `max(1, n)` is at least 1 and at least n, and is n when n >= 1 |
| Triangle.VertUv | PA1_Fall2025/Sketch.py:423-427 | a vertex inside the box gets (u, v) in [0, 1] x [0, 1]; the low corner maps to 0 and, on a side longer than zero, the high corner to 1 |
| Triangle.OrOne | PA1_Fall2025/Sketch.py:441 | `n or 1` is never 0 and is n when n != 0 |
| Triangle.EdgeTUnit | PA1_Fall2025/Sketch.py:441-442 | the parameter of a side at a row it spans lies in [0, 1] |
| Triangle.OrderSpan | PA1_Fall2025/Sketch.py:455-459 | after the swap x_left <= x_right; an ordered span is unchanged; otherwise positions, colours and texture coordinates are swapped together |
| Triangle.Alpha | PA1_Fall2025/Sketch.py:463-466 | alpha = (x - x_left) / max(1, x_right - x_left) is in [0, 1] for every column between the crossings |
| Triangle.ToTexels | PA1_Fall2025/Sketch.py:472-473 | a normalised coordinate in [0, 1] maps into [0, size - 1], with 0 to 0 and 1 to size - 1 |
| Triangle.RowSpan | PA1_Fall2025/Sketch.py:440-459 | one row of a fill: the two edge crossings with their colours and uv, swapped into left-to-right order; RowSpanInBox bounds it |
| Triangle.PixelColor | PA1_Fall2025/Sketch.py:465-478 | the colour of column x of a span: texture, then smooth, then flat; PixelColorUnit states its range and FlatFillColor the flat case |
| Triangle.FillPixels | PA1_Fall2025/Sketch.py:434-525 | the points fill_flat_bottom / fill_flat_top draw: nothing when dy == 0, else every row from v0.y to v2.y; FillMember and FillInBox state where they lie |
| Triangle.SpanCover | PA1_Fall2025/Sketch.py:461-465 | a row's pixels are the columns ceil(x_left) .. floor(x_right) in order, on that row, and every such column is drawn |
| Triangle.SpanRowsMember | PA1_Fall2025/Sketch.py:440-479 | every point of the first n rows belongs to one of those rows |
| Triangle.FillMember | PA1_Fall2025/Sketch.py:434-479 | every pixel of a flat fill lies on a row in [v0.y, v2.y], between that row's crossings |
| Triangle.RowSpanInBox | PA1_Fall2025/Sketch.py:441-462 | a row's crossings lie inside the half's bounding box |
| Triangle.RowInBox | PA1_Fall2025/Sketch.py:461-479 | every pixel of a row lies inside the half's bounding box |
| Triangle.FillInBox | PA1_Fall2025/Sketch.py:434-479 | every pixel of a flat fill lies inside the half's bounding box |
| Triangle.TruncBetween | PA1_Fall2025/Sketch.py:544 | truncating a real between two integers stays between them |
| Triangle.SplitPoint | PA1_Fall2025/Sketch.py:533-544 | v_split: the long side's crossing of the middle row truncated toward zero, with the long side's colour or p1's; SplitInBox places it in the box |
| Triangle.Halves | PA1_Fall2025/Sketch.py:528-547 | the flat-bottom half, the flat-top half, or both halves around v_split, chosen by which sorted vertices share a row; HalvesWithin and SplitRowsAgree state their shape |
| Triangle.TrianglePixels | PA1_Fall2025/Sketch.py:335-547 | the points drawTriangle draws, in order; TriangleInBox, TriangleColorsUnit and LevelTriangleDrawsNothing state them and DrawTriangle is proved to draw them |
| Triangle.SplitTUnit | PA1_Fall2025/Sketch.py:536 | the split parameter on the long side is in [0, 1] |
| Triangle.SplitInBox | PA1_Fall2025/Sketch.py:536-544 | the split vertex `(int(x_split), v_mid.y)` lies inside the bounding box |
| Triangle.SortedInBox | PA1_Fall2025/Sketch.py:371-377 | the sorted vertices lie in the bounding box of the inputs |
| Triangle.HalvesWithin | PA1_Fall2025/Sketch.py:528-547 | each half drawTriangle fills has the flat shape its fill expects and lies within the bounding box |
| Triangle.PartsWithin | PA1_Fall2025/Sketch.py:528-547 | the same for the halves of the original three points |
| Triangle.PartsInBox | PA1_Fall2025/Sketch.py:528-547 | every pixel of the halves lies in the box that holds them |
| Triangle.TriangleInBox | PA1_Fall2025/Sketch.py:335-547 | every pixel drawTriangle writes lies in the bounding box of its three vertices |
| Triangle.PixelColorUnit | PA1_Fall2025/Sketch.py:466-478 | a column's colour (texture, smooth or flat) is a unit colour when its inputs are |
| Triangle.SpanColorsUnit | PA1_Fall2025/Sketch.py:465-479 | every pixel of a span between unit colours has a unit colour |
| Triangle.RowColorsUnit | PA1_Fall2025/Sketch.py:440-479 | every pixel of a row of a unit-coloured half has a unit colour |
| Triangle.FillColorsUnit | PA1_Fall2025/Sketch.py:434-479 | every pixel of a flat fill of a unit-coloured half has a unit colour |
| Triangle.HalvesColorsUnit | PA1_Fall2025/Sketch.py:528-547 | both halves of a triangle with unit vertex colours are unit-coloured, split vertex included |
| Triangle.TriangleColorsUnit | PA1_Fall2025/Sketch.py:335-547 | with unit vertex colours and a unit texture, every pixel drawTriangle writes has a unit colour |
| Triangle.FlatFillColor | PA1_Fall2025/Sketch.py:477-478 | without smoothing or texture, every pixel of a fill gets the flat colour |
| Triangle.FlatShadedTriangle | PA1_Fall2025/Sketch.py:447-448 | with doSmooth off and no texturing, every pixel gets p1's colour, the first argument rather than the top vertex |
| Triangle.LevelTriangleDrawsNothing | PA1_Fall2025/Sketch.py:528-530 | a triangle whose three vertices share one row writes nothing: the flat-bottom fill returns on dy == 0 |
| Triangle.SplitRowsAgree | PA1_Fall2025/Sketch.py:544-547 | the row v_mid.y is drawn by both halves, with the same crossings and pixels |
| TriangleFill.FillSpan | PA1_Fall2025/Sketch.py:465-479 | the column loop leaves the buffer as drawing the row's SpanPixels in order |
| TriangleFill.FillRow | PA1_Fall2025/Sketch.py:440-479 | one row is drawn over what the rows above left |
| TriangleFill.FillRows | PA1_Fall2025/Sketch.py:440-479 | the row loop leaves the buffer as drawing the rows top to bottom |
| TriangleFill.FillFlat | PA1_Fall2025/Sketch.py:434-479 | fill_flat_bottom / fill_flat_top leave the buffer as drawing FillPixels in order |
| TriangleFill.FillBoth | PA1_Fall2025/Sketch.py:546-547 | the upper half is drawn before the lower one |
| TriangleFill.DrawHalves | PA1_Fall2025/Sketch.py:528-547 | the three-way branch leaves the buffer as drawing the chosen halves in order |
| TriangleFill.DrawTriangle | PA1_Fall2025/Sketch.py:335-547 | drawTriangle leaves the buffer as drawing TrianglePixels in order |
| Sphere.Fraction | Programming/PA4/DisplayableSphere.py:100-101 | the k-th of n + 1 samples of [0, 1] is in [0, 1], 0 first and 1 last, and times n gives k: u = j / slices and v = i / stacks |
| Sphere.SphereVertices | Programming/PA4/DisplayableSphere.py:81-103 | the vertex list of generate: the 11 values of each grid vertex, row by row; SphereVerticesLength, SphereGridVertex and SphereColumns state its layout |
| Sphere.SphereIndices | Programming/PA4/DisplayableSphere.py:105-119 | the index list of generate: the two triangles of every quad, quad by quad; SphereIndicesLength, SphereQuad and SphereIndexInRange state its layout |
| Sphere.SphereVerticesLength | Programming/PA4/DisplayableSphere.py:86-103 | the vertex list holds 11 * (stacks + 1) * (slices + 1) values |
| Sphere.SphereGridVertex | Programming/PA4/DisplayableSphere.py:86-103 | grid vertex (i, j) is the (i * (slices + 1) + j)-th vertex: radius-scaled direction, direction as normal, colour, j / slices, i / stacks |
| Sphere.SphereColumns | Programming/PA4/DisplayableSphere.py:82-103 | every vertex carries the given colour in columns 6-8 and texture coordinates in [0, 1] in columns 9-10 |
| Sphere.SphereIndicesLength | Programming/PA4/DisplayableSphere.py:108-119 | the index list holds 6 * stacks * slices entries |
| Sphere.SphereQuad | Programming/PA4/DisplayableSphere.py:108-119 | quad (i, j) contributes [p1, p3, p2, p2, p3, p4] at 6 (i * slices + j), with p2 = p1 + 1, p3 = p1 + width, p4 = p3 + 1 |
| Sphere.QuadInRange | Programming/PA4/DisplayableSphere.py:106-114 | the six indices of a quad name existing vertices; p2 stays in p1's row because j < slices |
| Sphere.SphereIndexInRange | Programming/PA4/DisplayableSphere.py:105-119 | every index is below (stacks + 1) * (slices + 1) |
| Sphere.BuildRow | Programming/PA4/DisplayableSphere.py:87-103 | the inner theta loop of row i appends exactly the slices + 1 grid vertices of that row |
| Sphere.BuildVertices | Programming/PA4/DisplayableSphere.py:81-103 | the phi / theta loop nest produces SphereVertices |
| Sphere.BuildIndices | Programming/PA4/DisplayableSphere.py:105-119 | the i / j loop nest produces SphereIndices |
| Sphere.DisplayableSphere.Generate | Programming/PA4/DisplayableSphere.py:75-122 | records radius, stacks, slices and colour, and stores the vertex and index lists they determine |
| Cube.VertexColor | Programming/PA4/DisplayableCube.py:78-81 | `color=None` gives white; any other colour is used as given |
| Cube.Faces | Programming/PA4/DisplayableCube.py:87-100 | six faces of four corners each |
| Cube.CubeVertices | Programming/PA4/DisplayableCube.py:83-116 | the vertex list of generate: four corner vertices per face, in the faces table's order; CubeLengths, CubeVertex and CubeCorners state its layout |
| Cube.CubeIndices | Programming/PA4/DisplayableCube.py:105-120 | the index list of generate: two triangles per face over that face's four vertices; CubeFace and CubeIndexInFace state its layout |
| Cube.CubeLengths | Programming/PA4/DisplayableCube.py:105-120 | 24 vertices of 11 values (264 entries) and 36 indices |
| Cube.CubeVertex | Programming/PA4/DisplayableCube.py:103-113 | vertex j of face i holds that corner's position, the face's normal, the vertex colour and texture coordinate j of (0,0), (1,0), (1,1), (0,1) |
| Cube.CubeFace | Programming/PA4/DisplayableCube.py:115-120 | face i contributes [4i, 4i+1, 4i+2, 4i, 4i+2, 4i+3] at 6i |
| Cube.CubeIndexInFace | Programming/PA4/DisplayableCube.py:115-120 | every index is below 24 and names one of its own face's four vertices |
| Cube.CubeCorners | Programming/PA4/DisplayableCube.py:73-99 | every corner is at plus or minus length / 2, width / 2 and height / 2 |
| Cube.CubeFacePlane | Programming/PA4/DisplayableCube.py:87-100 | every corner of a face lies in that face's plane: its dot product with the normal is the half size along the normal |
| Cube.CubeWinding | Programming/PA4/DisplayableCube.py:87-100 | for a box of positive size, both triangles of each face wind counter-clockwise about the face's outward normal |
| Cube.AppendCorners | Programming/PA4/DisplayableCube.py:109-113 | the inner loop appends the face's four vertices |
| Cube.AppendTriangles | Programming/PA4/DisplayableCube.py:115-120 | appends the face's two triangles |
| Cube.BuildCube | Programming/PA4/DisplayableCube.py:83-120 | the face loop produces CubeVertices and CubeIndices |
| Cube.DisplayableCube.Generate | Programming/PA4/DisplayableCube.py:66-123 | records length, width, height and colour, and stores the vertex and index lists they determine |
| GlProgram.Lower | Programming/PA4_Def/GLProgram.py:161-162 | `str.lower` keeps the length and lowers each letter in place |
| GlProgram.LowerIdempotent | Programming/PA4_Def/GLProgram.py:161-162 | lowering twice is lowering once |
| GlProgram.ContainsOccurs | Programming/PA4_Def/GLProgram.py:163-180 | `k in s` holds exactly when k occurs in s at some offset |
| GlProgram.ContainsTrans | Programming/PA4_Def/GLProgram.py:163-180 | a piece of a piece of t is a piece of t |
| GlProgram.RoutingFlag | Programming/PA4_Def/GLProgram.py:148-183 | the flag setFragmentShaderRouting uploads; RoutingBits, RoutingNonString, RoutingIgnoresCase and RoutingSubstring state which bits it holds |
| GlProgram.RenderingFlag | Programming/PA4_Def/GLProgram.py:159-180 | the successive OR updates compute RoutingFlag |
| GlProgram.FlagOfBits | Programming/PA4_Def/GLProgram.py:163-180 | each test owns its bits, "custom" owns bits 6 and 9, bit 7 is never set and the flag is below 1024 |
| GlProgram.RoutingBits | Programming/PA4_Def/GLProgram.py:159-180 | bit 0 is set iff "lighting" or "illumination" occurs in the lowered routing; bits 1-5 iff "vertex", "pure", "normal", "bump", "artist"; bit 8 iff "texture"; bits 6 and 9 iff "custom"; bit 7 never; flag < 1024 |
| GlProgram.RoutingNonString | Programming/PA4_Def/GLProgram.py:159-161 | a routing that is not a string gives flag 0 |
| GlProgram.RoutingIgnoresCase | Programming/PA4_Def/GLProgram.py:161-162 | routings equal up to case get the same flag |
| GlProgram.FlagOfMonotone | Programming/PA4_Def/GLProgram.py:160-180 | passing more tests never clears a bit |
| GlProgram.HitsMonotone | Programming/PA4_Def/GLProgram.py:163-180 | a string holding every keyword of another passes every test the other passes |
| GlProgram.RoutingMonotone | Programming/PA4_Def/GLProgram.py:160-180 | a routing holding every keyword of another gets a superset of its bits |
| GlProgram.RoutingSubstring | Programming/PA4_Def/GLProgram.py:160-180 | a routing whose lowered text occurs in another's gets a subset of the other's bits |
| GlProgram.MatCheck | Programming/PA4_Def/GLProgram.py:215-231 | setMat2/3/4 accept exactly an n x n array |
| GlProgram.VecCheck | Programming/PA4_Def/GLProgram.py:233-249 | setVec2/3/4 accept exactly an array of n elements, whatever its shape |
| GlProgram.VecAcceptsAnyLayout | Programming/PA4_Def/GLProgram.py:233-249 | flat, row and column arrays of n elements all pass setVecn, while a flat array of n * n elements fails setMatn |
| GlProgram.IntCheck | Programming/PA4_Def/GLProgram.py:257-261 | setInt's argument check and the integer it uploads; IntCheckAccepts states what passes |
| GlProgram.BoolCheck | Programming/PA4_Def/GLProgram.py:251-255 | setBool's argument check and the 0 or 1 it uploads; BoolCheckAccepts and BoolIsInt state what passes |
| GlProgram.PyInt | Programming/PA4_Def/GLProgram.py:259-261 | `int()` returns an integer unchanged and truncates a float |
| GlProgram.IntCheckAccepts | Programming/PA4_Def/GLProgram.py:257-261 | setInt accepts exactly integers, booleans and integral floats, and uploads `int(value)`, which equals the value itself |
| GlProgram.BoolCheckAccepts | Programming/PA4_Def/GLProgram.py:251-255 | setBool accepts exactly True, False and numbers equal to 0 or 1 |
| GlProgram.BoolIsInt | Programming/PA4_Def/GLProgram.py:251-261 | whatever setBool accepts, setInt accepts too and uploads the same 0 or 1 |
| GlProgram.SetSource | Programming/PA4_Def/GLProgram.py:96-104 | set_vss / set_fss succeed exactly on strings and then replace the source; otherwise the source is kept and TypeError raised |
| GlProgram.StoreSources | Programming/PA4_Def/GLProgram.py:118-127 | the argument half of compile: truthy sources go through set_vss then set_fss, the first TypeError stops it; CompileRejects states the failures |
| GlProgram.BuildShaders | Programming/PA4_Def/GLProgram.py:128-146 | the shader half of compile: missing-source check, compile errors, zero handles returning quietly, link failure, then ready; CompileReady states when ready is set |
| GlProgram.CompileStep | Programming/PA4_Def/GLProgram.py:118-146 | compile(vs_src, fs_src) as StoreSources then BuildShaders; CompileReady and CompileRejects state its outcomes |
| GlProgram.CompileReady | Programming/PA4_Def/GLProgram.py:118-146 | ready ends true exactly when it was true or the compile had non-empty string sources, two real shader handles and a successful link; such a compile returns normally and stores the sources it used |
| GlProgram.CompileRejects | Programming/PA4_Def/GLProgram.py:118-130 | a truthy non-string vertex source raises TypeError and changes nothing; a truthy non-string fragment source raises TypeError after the vertex source is stored (set_vss has already run), keeping the old fragment source and ready; an empty source raises "shader source code missing"; none of these sets ready |
| GlProgram.GLProgram.constructor | Programming/PA4_Def/GLProgram.py:66-76 | a new program is not ready and holds the two shader files' contents |
| GlProgram.GLProgram.SetVss | Programming/PA4_Def/GLProgram.py:96-99 | set_vss behaves as SetSource on the vertex source and changes nothing else |
| GlProgram.GLProgram.SetFss | Programming/PA4_Def/GLProgram.py:101-104 | set_fss behaves as SetSource on the fragment source and changes nothing else |
| GlProgram.GLProgram.LoadSources | Programming/PA4_Def/GLProgram.py:119-127 | the argument half of compile behaves as StoreSources |
| GlProgram.GLProgram.LinkShaders | Programming/PA4_Def/GLProgram.py:129-146 | the shader half of compile behaves as BuildShaders |
| GlProgram.GLProgram.Compile | Programming/PA4_Def/GLProgram.py:118-146 | compile's new state and outcome are CompileStep of the old state |
| GlProgram.GLProgram.Use | Programming/PA4_Def/GLProgram.py:185-191 | use succeeds exactly when ready and otherwise raises "GLProgram must compile before use it" |
| GlProgram.GLProgram.SetInt | Programming/PA4_Def/GLProgram.py:257-261 | raises unless ready; when ready, succeeds exactly when setInt's check passes and uploads the checked integer |
| GlProgram.GLProgram.SetBool | Programming/PA4_Def/GLProgram.py:251-255 | raises unless ready; when ready, succeeds exactly when setBool's check passes and uploads 0 or 1 |
| GlProgram.GLProgram.SetMat | Programming/PA4_Def/GLProgram.py:215-231 | raises unless ready; otherwise the shape check decides |
| GlProgram.GLProgram.SetVec | Programming/PA4_Def/GLProgram.py:233-249 | raises unless ready; otherwise the size check decides |
| GlProgram.GLProgram.SetFragmentShaderRouting | Programming/PA4_Def/GLProgram.py:148-183 | succeeds exactly when ready and then uploads RoutingFlag of the routing |

## Left out

- User-interface code of the sketch is not modelled: wx event handling, keyboard and mouse handlers, test-case generators, `main`. It only forwards points to the draw methods.
- Loading textures from image files (PIL/numpy) is foreign I/O. A texture is given as a 2D array of colours. `queryTextureBuffPoint`'s debug warnings are printing only.
- `doAA` and `doAAlevel` are accepted by the draw methods but never used.
- Floating-point rounding is not modelled: colours, interpolation parameters, crossings and texture coordinates are exact reals.
- The numpy uint8 store wraps out-of-range channels modulo 256 (`Canvas.ToByte`). Negative or oversized buffer indices are not modelled: drawLine and drawTriangle require their vertices in the buffer, and drawPoint requires its point in the buffer.
- `sx` in drawLine is computed and never used, and `curr_x += 1` is dead. Neither has an effect, so neither is modelled.
- TriangleFill.FillFlat computes every row's crossings before its row loop; the source computes each row's inside the loop. The pixels written and their order are the same.
- The sphere's positions and normals come from cos and sin. Sphere.DisplayableSphere.Generate takes the unit direction of each grid vertex as a parameter `dir`; the model states position = radius * direction and normal = direction.
- Sphere and cube vertices are stored as float32 and indices as uint32; the model keeps exact reals and unbounded integers. `stacks` and `slices` are typed `nat`, so the model excludes -1. The source accepts `stacks = -1` or `slices = -1`: `np.linspace` with a count of 0 and `range(-1)` are empty, so generate stores empty vertex and index lists. Values of -2 and below make `np.linspace` raise.
- The `initialize` and `draw` methods of the Displayable classes are VAO, VBO and EBO calls into OpenGL.
- Every `gl.*` call in GLProgram is left out: program and shader creation, shader compilation (its outcome is a parameter), linking, `glUseProgram` and the uniform uploads. The uploaded value is returned as `sent` instead.
- Reading the shader files in `__init__` is left out; the constructor takes their contents.
- `load_shader`, `getAttribLocation`, `getUniformLocation`, `setFloat`, `setLight`, `clearAllLights` and `perspectiveMatrix` are not modelled. They are GL calls, light records over unseen classes, or trigonometry that returns nothing.
- The `debug` printing is not modelled.
- GlProgram.Lower: only ASCII letters are lowered; Python's `str.lower` also lowers other Unicode letters.
- numpy arrays are modelled by their shape. The truthiness of an array is modelled as its size being non-zero; numpy raises for arrays of more than one element.
- GlProgram.IntCheckAccepts: a string or an array passed to setInt is modelled as rejected with "set int only accept integer". Python may raise a ValueError from `int()` instead, or accept a one-element array; the model does not distinguish these.
- GlProgram.BoolCheckAccepts: an array passed to setBool is modelled as rejected.
