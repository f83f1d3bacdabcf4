/** The lit meshes: every vertex carries a normal, and each mesh also builds a
    list of short line segments that visualise those normals. */
module LitMeshes {
  import opened MeshGeometry

  datatype Option<T> = None | Some(value: T)

  // ---------------------------------------------------------------------
  // LitMesh::addQuadFace

  /** The centre of the quad a, b, c, d: a + 0.5 (d - a) + 0.5 (b - a). */
  function QuadCentre(a: Vec3, b: Vec3, d: Vec3): Vec3 {
    Add(Add(a, Scale(0.5, Sub(d, a))), Scale(0.5, Sub(b, a)))
  }

  /** addQuadFace: appends the four corners, all with normal n, and the two
      triangles (i, i+1, i+2) and (i, i+2, i+3) over them, where i is the
      number of vertices before the call; when a visualisation list is given,
      appends the quad's centre and the centre moved a quarter along n. */
  method AddQuadFace(a: Vec3, b: Vec3, c: Vec3, d: Vec3, n: Vec3,
                     vertices: seq<Vertex>, indices: seq<int>, visualizeNormals: Option<seq<Vec3>>)
    returns (vertices': seq<Vertex>, indices': seq<int>, visualizeNormals': Option<seq<Vec3>>)
    ensures vertices' == vertices + [Vertex(At(a), At(n)), Vertex(At(b), At(n)),
                                     Vertex(At(c), At(n)), Vertex(At(d), At(n))]
    ensures var i := |vertices|; indices' == indices + [i, i + 1, i + 2, i, i + 2, i + 3]
    ensures visualizeNormals.None? ==> visualizeNormals'.None?
    ensures visualizeNormals.Some? ==>
              var p := QuadCentre(a, b, d);
              visualizeNormals' == Some(visualizeNormals.value + [p, Add(p, Scale(0.25, n))])
  {
    var i := |vertices|;
    vertices' := vertices + [Vertex(At(a), At(n))];
    vertices' := vertices' + [Vertex(At(b), At(n))];
    vertices' := vertices' + [Vertex(At(c), At(n))];
    vertices' := vertices' + [Vertex(At(d), At(n))];
    indices' := indices + [i, i + 1, i + 2];
    indices' := indices' + [i, i + 2, i + 3];
    visualizeNormals' := visualizeNormals;
    if visualizeNormals.Some? {
      var p := QuadCentre(a, b, d);
      visualizeNormals' := Some(visualizeNormals'.value + [p]);
      visualizeNormals' := Some(visualizeNormals'.value + [Add(p, Scale(0.25, n))]);
      assert visualizeNormals'.value == visualizeNormals.value + [p, Add(p, Scale(0.25, n))];
    }
  }

  /** A quad appended to a mesh whose indices are in range keeps them in range. */
  lemma QuadIndicesBelow(indices: seq<int>, i: nat)
    requires AllBelow(indices, i)
    ensures AllBelow(indices + [i, i + 1, i + 2, i, i + 2, i + 3], i + 4)
  {
  }

  // ---------------------------------------------------------------------
  // LitCubeMesh::init

  /** The face normals in the order the faces are added: front, right, left,
      back, top, bottom. */
  const CubeNormals: seq<Vec3> := [
    Vec3(0.0, 0.0, 1.0), Vec3(1.0, 0.0, 0.0), Vec3(-1.0, 0.0, 0.0),
    Vec3(0.0, 0.0, -1.0), Vec3(0.0, 1.0, 0.0), Vec3(0.0, -1.0, 0.0)
  ]

  /** Vertex k of the cube belongs to face k / 4 and carries that face's normal. */
  predicate FaceNormals(vs: seq<Vertex>) {
    |vs| <= 24 && forall k :: 0 <= k < |vs| ==> vs[k].normal == At(CubeNormals[k / 4])
  }

  lemma FaceAppended(vs: seq<Vertex>, face: nat, a: Vec3, b: Vec3, c: Vec3, d: Vec3)
    requires face < 6 && |vs| == 4 * face && FaceNormals(vs)
    ensures FaceNormals(vs + [Vertex(At(a), At(CubeNormals[face])), Vertex(At(b), At(CubeNormals[face])),
                              Vertex(At(c), At(CubeNormals[face])), Vertex(At(d), At(CubeNormals[face]))])
  {
  }

  /** One addQuadFace call of LitCubeMesh::init, with what it keeps. */
  method AddCubeFace(face: nat, a: Vec3, b: Vec3, c: Vec3, d: Vec3,
                     vertices: seq<Vertex>, indices: seq<int>, vis: seq<Vec3>)
    returns (vertices': seq<Vertex>, indices': seq<int>, vis': seq<Vec3>)
    requires face < 6 && |vertices| == 4 * face && |indices| == 6 * face && |vis| == 2 * face
    requires FaceNormals(vertices) && AllBelow(indices, |vertices|)
    ensures |vertices'| == 4 * face + 4 && |indices'| == 6 * face + 6 && |vis'| == 2 * face + 2
    ensures FaceNormals(vertices') && AllBelow(indices', |vertices'|)
  {
    var visOut;
    vertices', indices', visOut := AddQuadFace(a, b, c, d, CubeNormals[face], vertices, indices, Some(vis));
    vis' := visOut.value;
    QuadIndicesBelow(indices, |vertices|);
    FaceAppended(vertices, face, a, b, c, d);
  }

  /** LitCubeMesh::init: six quads give 24 vertices, 36 indices all below 24,
      and 12 visualisation points; the four vertices of face k carry normal k. */
  method LitCubeInit() returns (vertices: seq<Vertex>, indices: seq<int>, visualizeNormals: seq<Vec3>)
    ensures |vertices| == 24 && |indices| == 36 && |visualizeNormals| == 12
    ensures AllBelow(indices, |vertices|)
    ensures forall k :: 0 <= k < 24 ==> vertices[k].normal == At(CubeNormals[k / 4])
  {
    var v := CubeCorners;
    vertices, indices, visualizeNormals := [], [], [];
    vertices, indices, visualizeNormals := AddCubeFace(0, v[0], v[1], v[2], v[3], vertices, indices, visualizeNormals);
    vertices, indices, visualizeNormals := AddCubeFace(1, v[1], v[5], v[6], v[2], vertices, indices, visualizeNormals);
    vertices, indices, visualizeNormals := AddCubeFace(2, v[4], v[0], v[3], v[7], vertices, indices, visualizeNormals);
    vertices, indices, visualizeNormals := AddCubeFace(3, v[5], v[4], v[7], v[6], vertices, indices, visualizeNormals);
    vertices, indices, visualizeNormals := AddCubeFace(4, v[3], v[2], v[6], v[7], vertices, indices, visualizeNormals);
    vertices, indices, visualizeNormals := AddCubeFace(5, v[0], v[4], v[5], v[1], vertices, indices, visualizeNormals);
  }

  // ---------------------------------------------------------------------
  // LitCylinderMesh::init(facets, segments)

  const Up: Vec3 := Vec3(0.0, 1.0, 0.0)
  const Down: Vec3 := Vec3(0.0, -1.0, 0.0)

  /** The first n vertices of a cap ring at height y, all with the cap's normal. */
  function CapRing(facets: nat, y: real, normal: Vec3, n: nat): (vs: seq<Vertex>)
    ensures |vs| == n
    ensures forall k :: 0 <= k < n ==> vs[k].normal == At(normal)
  {
    if n == 0 then []
    else CapRing(facets, y, normal, n - 1) + [Vertex(OnCircle(n - 1, facets, 0.5, Level(y)), At(normal))]
  }

  /** The first n vertices of side ring s: on the ring's layer, with the
      outward normal (sin, 0, cos). */
  function SideRingVertices(facets: nat, segments: nat, s: int, n: nat): (vs: seq<Vertex>)
    ensures |vs| == n
  {
    if n == 0 then []
    else SideRingVertices(facets, segments, s, n - 1)
         + [Vertex(OnCircle(n - 1, facets, 0.5, Layer(s, segments)), OnCircle(n - 1, facets, 1.0, Level(0.0)))]
  }

  /** Side rings 0 .. n-1. */
  function SideRings(facets: nat, segments: nat, n: nat): (vs: seq<Vertex>)
    ensures |vs| == facets * n
  {
    if n == 0 then []
    else SideRings(facets, segments, n - 1) + SideRingVertices(facets, segments, n - 1, facets)
  }

  function TopCentre(): Vertex {
    Vertex(At(Vec3(0.0, 0.5, 0.0)), At(Up))
  }

  function BottomCentre(): Vertex {
    Vertex(At(Vec3(0.0, -0.5, 0.0)), At(Down))
  }

  /** Top centre and ring, bottom centre and ring, then the side rings. */
  function LitCylinderVertices(facets: nat, segments: nat): seq<Vertex> {
    [TopCentre()] + CapRing(facets, 0.5, Up, facets)
      + [BottomCentre()] + CapRing(facets, -0.5, Down, facets)
      + SideRings(facets, segments, segments + 1)
  }

  function LitCylinderVertexCount(facets: nat, segments: nat): nat {
    2 * (facets + 1) + facets * (segments + 1)
  }

  /** A cap triangle, counter-clockwise seen from outside: (centre, i, next)
      on the top cap and (centre, next, i) on the bottom cap. */
  function LitCapTriangle(top: bool, center: int, facets: nat, offset: int, f: int): seq<int> {
    var i := f + offset;
    if top then [center, i, NextInRing(facets, offset, f)]
    else [center, NextInRing(facets, offset, f), i]
  }

  function LitCap(top: bool, center: int, facets: nat, offset: int, n: nat): (xs: seq<int>)
    ensures |xs| == 3 * n
  {
    if n == 0 then [] else LitCap(top, center, facets, offset, n - 1) + LitCapTriangle(top, center, facets, offset, n - 1)
  }

  /** Index of the first vertex of side ring s. */
  function LitRingStart(facets: nat, s: int): int {
    2 * (facets + 1) + facets * s
  }

  function LitSideQuad(facets: nat, offset: int, f: int): seq<int> {
    var i := f + offset;
    var next := NextInRing(facets, offset, f);
    [i, i + facets, next, next, i + facets, next + facets]
  }

  function LitSideRing(facets: nat, offset: int, n: nat): (xs: seq<int>)
    ensures |xs| == 6 * n
  {
    if n == 0 then [] else LitSideRing(facets, offset, n - 1) + LitSideQuad(facets, offset, n - 1)
  }

  function LitSides(facets: nat, n: nat): (xs: seq<int>)
    ensures |xs| == 6 * facets * n
  {
    if n == 0 then [] else LitSides(facets, n - 1) + LitSideRing(facets, LitRingStart(facets, n - 1), facets)
  }

  function LitCylinderIndices(facets: nat, segments: nat): seq<int> {
    LitCap(true, 0, facets, 1, facets) + LitCap(false, 1 + facets, facets, 2 + facets, facets)
      + LitSides(facets, segments)
  }

  lemma {:induction false} LitCapBelow(top: bool, center: int, facets: nat, offset: int, n: nat, count: int)
    requires n <= facets && 0 <= center < count && 0 <= offset && offset + facets <= count
    ensures AllBelow(LitCap(top, center, facets, offset, n), count)
  {
    if n > 0 {
      LitCapBelow(top, center, facets, offset, n - 1, count);
      AllBelowConcat(LitCap(top, center, facets, offset, n - 1), LitCapTriangle(top, center, facets, offset, n - 1), count);
    }
  }

  lemma {:induction false} LitSideRingBelow(facets: nat, offset: int, n: nat, count: int)
    requires n <= facets && 0 <= offset && offset + 2 * facets <= count
    ensures AllBelow(LitSideRing(facets, offset, n), count)
  {
    if n > 0 {
      LitSideRingBelow(facets, offset, n - 1, count);
      AllBelowConcat(LitSideRing(facets, offset, n - 1), LitSideQuad(facets, offset, n - 1), count);
    }
  }

  lemma {:induction false} LitSidesBelow(facets: nat, n: nat, count: int)
    requires LitRingStart(facets, n + 1) <= count
    ensures AllBelow(LitSides(facets, n), count)
  {
    if n > 0 {
      assert LitRingStart(facets, n + 1) == LitRingStart(facets, n) + facets;
      assert LitRingStart(facets, n) == LitRingStart(facets, n - 1) + facets;
      LitSidesBelow(facets, n - 1, count);
      MulMonotone(facets, 0, n - 1);
      LitSideRingBelow(facets, LitRingStart(facets, n - 1), facets, count);
      AllBelowConcat(LitSides(facets, n - 1), LitSideRing(facets, LitRingStart(facets, n - 1), facets), count);
    }
  }

  /** Every filled index names a vertex, for every facet and segment count;
      this is what the run-time check after the index loops looks for. */
  lemma LitCylinderIndicesBelow(facets: nat, segments: nat)
    ensures AllBelow(LitCylinderIndices(facets, segments), LitCylinderVertexCount(facets, segments))
  {
    var count := LitCylinderVertexCount(facets, segments);
    assert LitRingStart(facets, segments + 1) == count;
    MulMonotone(facets, 0, segments + 1);
    LitCapBelow(true, 0, facets, 1, facets, count);
    LitCapBelow(false, 1 + facets, facets, 2 + facets, facets, count);
    LitSidesBelow(facets, segments, count);
    var top := LitCap(true, 0, facets, 1, facets);
    var bottom := LitCap(false, 1 + facets, facets, 2 + facets, facets);
    AllBelowConcat(top, bottom, count);
    AllBelowConcat(top + bottom, LitSides(facets, segments), count);
  }

  /** The top centre and ring carry normal (0, 1, 0), the bottom centre and
      ring (0, -1, 0). */
  lemma LitCylinderCapNormals(facets: nat, segments: nat)
    ensures |LitCylinderVertices(facets, segments)| == LitCylinderVertexCount(facets, segments)
    ensures forall k :: 0 <= k <= facets ==> LitCylinderVertices(facets, segments)[k].normal == At(Up)
    ensures forall k :: facets + 1 <= k <= 2 * facets + 1 ==>
              LitCylinderVertices(facets, segments)[k].normal == At(Down)
  {
    var top := [TopCentre()] + CapRing(facets, 0.5, Up, facets);
    var bottom := [BottomCentre()] + CapRing(facets, -0.5, Down, facets);
    var sides := SideRings(facets, segments, segments + 1);
    assert LitCylinderVertices(facets, segments) == top + bottom + sides;
    assert forall k :: 0 <= k <= facets ==> top[k].normal == At(Up);
    assert forall k :: 0 <= k <= facets ==> bottom[k].normal == At(Down);
  }

  /** The normal-visualisation segments of a vertex list: each position, then
      the position moved 0.3 along its normal. */
  function NormalLines(vs: seq<Vertex>): (ps: seq<Point>)
    ensures |ps| == 2 * |vs|
  {
    if |vs| == 0 then []
    else
      var v := vs[|vs| - 1];
      NormalLines(vs[..|vs| - 1]) + [v.position, Along(v.position, v.normal, 0.3)]
  }

  /** Entries 2k and 2k+1 of the visualisation list belong to vertex k. */
  lemma {:induction false} NormalLinesAt(vs: seq<Vertex>, k: nat)
    requires k < |vs|
    ensures NormalLines(vs)[2 * k] == vs[k].position
    ensures NormalLines(vs)[2 * k + 1] == Along(vs[k].position, vs[k].normal, 0.3)
  {
    var init := vs[..|vs| - 1];
    if k < |vs| - 1 {
      NormalLinesAt(init, k);
    }
  }

  /** LitCylinderMesh::init(facets, segments). */
  method LitCylinderInit(facets: nat, segments: nat)
    returns (vertices: seq<Vertex>, indices: seq<int>, indexErrors: nat, visualizeNormals: seq<Point>)
    ensures vertices == LitCylinderVertices(facets, segments)
    ensures |vertices| == LitCylinderVertexCount(facets, segments)
    ensures indices == LitCylinderIndices(facets, segments)
    ensures |indices| == 6 * facets + 6 * facets * segments
    ensures AllBelow(indices, |vertices|) && indexErrors == 0
    ensures visualizeNormals == NormalLines(vertices) && |visualizeNormals| == 2 * |vertices|
  {
    vertices := LitCylinderVertexLoops(facets, segments);
    LitCylinderCapNormals(facets, segments);
    indices := LitCylinderIndexLoops(facets, segments);
    LitCylinderIndicesBelow(facets, segments);
    indexErrors := CountIndexErrors(indices, |vertices|);
    ErrorCountZero(indices, |vertices|);
    visualizeNormals := NormalLineLoop(vertices);
  }

  /** The vertex loops of LitCylinderMesh::init. */
  method LitCylinderVertexLoops(facets: nat, segments: nat) returns (vertices: seq<Vertex>)
    ensures vertices == LitCylinderVertices(facets, segments)
  {
    vertices := [TopCentre()];
    var f := 0;
    while f < facets
      invariant 0 <= f <= facets
      invariant vertices == [TopCentre()] + CapRing(facets, 0.5, Up, f)
    {
      vertices := vertices + [Vertex(OnCircle(f, facets, 0.5, Level(0.5)), At(Up))];
      f := f + 1;
    }
    vertices := vertices + [BottomCentre()];
    var upper := vertices;
    f := 0;
    while f < facets
      invariant 0 <= f <= facets
      invariant vertices == upper + CapRing(facets, -0.5, Down, f)
    {
      vertices := vertices + [Vertex(OnCircle(f, facets, 0.5, Level(-0.5)), At(Down))];
      f := f + 1;
    }
    var caps := vertices;
    var s := 0;
    while s <= segments
      invariant 0 <= s <= segments + 1
      invariant vertices == caps + SideRings(facets, segments, s)
    {
      f := 0;
      while f < facets
        invariant 0 <= f <= facets
        invariant vertices == caps + SideRings(facets, segments, s) + SideRingVertices(facets, segments, s, f)
      {
        vertices := vertices
          + [Vertex(OnCircle(f, facets, 0.5, Layer(s, segments)), OnCircle(f, facets, 1.0, Level(0.0)))];
        f := f + 1;
      }
      s := s + 1;
    }
  }

  /** The cap and side index loops of LitCylinderMesh::init. */
  method LitCylinderIndexLoops(facets: nat, segments: nat) returns (indices: seq<int>)
    ensures indices == LitCylinderIndices(facets, segments)
  {
    indices := LitCapLoops(facets);
    indices := LitSideLoops(facets, segments, indices);
  }

  method LitCapLoops(facets: nat) returns (indices: seq<int>)
    ensures indices == LitCap(true, 0, facets, 1, facets) + LitCap(false, 1 + facets, facets, 2 + facets, facets)
  {
    indices := [];
    var center := 0;
    var offset := center + 1;
    var f := 0;
    while f < facets
      invariant 0 <= f <= facets
      invariant indices == LitCap(true, 0, facets, 1, f)
    {
      var i := f + offset;
      indices := indices + [center, i, if f < facets - 1 then i + 1 else offset];
      f := f + 1;
    }
    var top := indices;
    center := 1 + facets;
    offset := center + 1;
    f := 0;
    while f < facets
      invariant 0 <= f <= facets
      invariant indices == top + LitCap(false, 1 + facets, facets, 2 + facets, f)
    {
      var i := f + offset;
      indices := indices + [center, if f < facets - 1 then i + 1 else offset, i];
      f := f + 1;
    }
  }

  /** The side loops of LitCylinderMesh::init, appending to the cap indices. */
  method LitSideLoops(facets: nat, segments: nat, caps: seq<int>) returns (indices: seq<int>)
    ensures indices == caps + LitSides(facets, segments)
  {
    indices := caps;
    var s := 0;
    while s < segments
      invariant 0 <= s <= segments
      invariant indices == caps + LitSides(facets, s)
    {
      var ring := LitSideRingLoop(facets, 2 * (facets + 1) + facets * s);
      indices := indices + ring;
      s := s + 1;
    }
  }

  /** The inner side loop: the two triangles of every quad between the ring
      starting at `offset` and the ring below it. */
  method LitSideRingLoop(facets: nat, offset: int) returns (ring: seq<int>)
    ensures ring == LitSideRing(facets, offset, facets)
  {
    ring := [];
    var f := 0;
    while f < facets
      invariant 0 <= f <= facets
      invariant ring == LitSideRing(facets, offset, f)
    {
      var i := f + offset;
      var iPlus1 := if f < facets - 1 then i + 1 else offset;
      ring := ring + [i, i + facets, iPlus1] + [iPlus1, i + facets, iPlus1 + facets];
      f := f + 1;
    }
  }

  /** The normal-visualisation loop: two points per vertex. */
  method NormalLineLoop(vertices: seq<Vertex>) returns (visualizeNormals: seq<Point>)
    ensures visualizeNormals == NormalLines(vertices)
  {
    visualizeNormals := [];
    var i := 0;
    while i < |vertices|
      invariant 0 <= i <= |vertices|
      invariant visualizeNormals == NormalLines(vertices[..i])
    {
      assert vertices[..i + 1][..i] == vertices[..i];
      var v := vertices[i].position;
      var n := vertices[i].normal;
      visualizeNormals := visualizeNormals + [v, Along(v, n, 0.3)];
      i := i + 1;
    }
    assert vertices[..i] == vertices;
  }

  // ---------------------------------------------------------------------
  // LitSphereMesh::init(n)

  /** The sphere's normal-visualisation segments: a point on the unit sphere
      is its own normal, so each point p gives p and p + 0.3 p. */
  function RadialLines(ps: seq<Point>): (ls: seq<Point>)
    ensures |ls| == 2 * |ps|
  {
    if |ps| == 0 then []
    else
      var p := ps[|ps| - 1];
      RadialLines(ps[..|ps| - 1]) + [p, Along(p, p, 0.3)]
  }

  /** LitSphereMesh::init(n): the subdivided tetrahedron, 12 * 4^n vertices,
      and two visualisation points per vertex. */
  method LitSphereInit(n: int) returns (vertices: seq<Point>, visualizeNormals: seq<Point>)
    ensures vertices == SphereVertices(n)
    ensures n >= 0 ==> |vertices| == 12 * Pow4(n)
    ensures visualizeNormals == RadialLines(vertices) && |visualizeNormals| == 2 * |vertices|
  {
    vertices := SphereVertices(n);
    visualizeNormals := [];
    var i := 0;
    while i < |vertices|
      invariant 0 <= i <= |vertices|
      invariant visualizeNormals == RadialLines(vertices[..i])
    {
      assert vertices[..i + 1][..i] == vertices[..i];
      var v := vertices[i];
      visualizeNormals := visualizeNormals + [v, Along(v, v, 0.3)];
      i := i + 1;
    }
    assert vertices[..i] == vertices;
  }
}
