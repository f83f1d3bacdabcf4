/** The unlit meshes: the grid, the cube tables, the cylinder, the sphere, the
    star field, the ship's exhaust particles and the ship's wire frame. Only the
    vertex and index lists are modelled; uploading them to the GPU is not. */
module Meshes {
  import opened MeshGeometry
  import GlUtilities

  // ---------------------------------------------------------------------
  // GridMesh::init

  /** The two end points of one grid line at `coord`, spanning [-extent, extent]. */
  function LinePair(vertical: bool, coord: real, extent: real): (vs: seq<Vec2>)
    ensures |vs| == 2
  {
    if vertical then [Vec2(coord, -extent), Vec2(coord, extent)]
    else [Vec2(-extent, coord), Vec2(extent, coord)]
  }

  /** The position of grid line i: i * sizeSquare. */
  function GridCoord(i: int, size: real): real {
    i as real * size
  }

  /** The lines the loop `for (i = -n; i <= n; i++)` has emitted once i reaches upTo. */
  function GridLines(n: int, size: real, extent: real, vertical: bool, upTo: int): (vs: seq<Vec2>)
    ensures upTo >= -n ==> |vs| == 2 * (upTo + n)
    ensures upTo <= -n ==> vs == []
    decreases upTo + n
  {
    if upTo <= -n then []
    else GridLines(n, size, extent, vertical, upTo - 1) + LinePair(vertical, GridCoord(upTo - 1, size), extent)
  }

  /** Number of vertices GridMesh::init emits. */
  function GridCount(numX: int, numY: int): int {
    (if numX >= 0 then 2 * (2 * numX + 1) else 0) + (if numY >= 0 then 2 * (2 * numY + 1) else 0)
  }

  /** Line i of the grid (-n <= i <= n) sits at pair 2 (i + n) of the list. */
  lemma {:induction false} GridLineAt(n: int, size: real, extent: real, vertical: bool, upTo: int, i: int)
    requires -n <= i < upTo
    ensures |GridLines(n, size, extent, vertical, upTo)| >= 2 * (i + n) + 2
    ensures GridLines(n, size, extent, vertical, upTo)[2 * (i + n) .. 2 * (i + n) + 2]
            == LinePair(vertical, GridCoord(i, size), extent)
    decreases upTo + n
  {
    var prev := GridLines(n, size, extent, vertical, upTo - 1);
    var all := GridLines(n, size, extent, vertical, upTo);
    assert all == prev + LinePair(vertical, GridCoord(upTo - 1, size), extent);
    if i < upTo - 1 {
      GridLineAt(n, size, extent, vertical, upTo - 1, i);
      var k := 2 * (i + n);
      assert all[k..k + 2] == prev[k..k + 2] by {
        assert all[..|prev|] == prev;
        assert k + 2 <= |prev|;
      }
    } else {
      assert |prev| == 2 * (i + n);
      assert all[|prev| .. |prev| + 2] == LinePair(vertical, GridCoord(upTo - 1, size), extent);
    }
  }

  /** GridMesh::init: one vertical pair per i in [-numX, numX], then one
      horizontal pair per i in [-numY, numY]. */
  method GridInit(numX: int, numY: int, sizeSquare: real) returns (vertices: seq<Vec2>)
    ensures vertices == GridLines(numX, sizeSquare, GridCoord(numY, sizeSquare), true, numX + 1)
                      + GridLines(numY, sizeSquare, GridCoord(numX, sizeSquare), false, numY + 1)
    ensures |vertices| == GridCount(numX, numY)
  {
    var width := GridCoord(numX, sizeSquare);
    var height := GridCoord(numY, sizeSquare);
    vertices := [];
    var i := -numX;
    while i <= numX
      invariant -numX <= i && (numX >= 0 ==> i <= numX + 1) && (numX < 0 ==> i == -numX)
      invariant vertices == GridLines(numX, sizeSquare, height, true, i)
      decreases numX - i
    {
      vertices := vertices + LinePair(true, GridCoord(i, sizeSquare), height);
      i := i + 1;
    }
    assert vertices == GridLines(numX, sizeSquare, height, true, numX + 1);
    var verticals := vertices;
    i := -numY;
    while i <= numY
      invariant -numY <= i && (numY >= 0 ==> i <= numY + 1) && (numY < 0 ==> i == -numY)
      invariant vertices == verticals + GridLines(numY, sizeSquare, width, false, i)
      decreases numY - i
    {
      assert GridLines(numY, sizeSquare, width, false, i + 1)
             == GridLines(numY, sizeSquare, width, false, i) + LinePair(false, GridCoord(i, sizeSquare), width);
      vertices := vertices + LinePair(false, GridCoord(i, sizeSquare), width);
      i := i + 1;
    }
    assert GridLines(numY, sizeSquare, width, false, i) == GridLines(numY, sizeSquare, width, false, numY + 1);
  }

  // ---------------------------------------------------------------------
  // CubeMesh::init

  /** The filled cube: two triangles per face, front, right, left, back, top, bottom. */
  const CubeIndices: seq<int> := [
    0, 1, 2, 0, 2, 3,
    1, 5, 6, 1, 6, 2,
    4, 0, 3, 4, 3, 7,
    5, 4, 7, 5, 7, 6,
    3, 2, 6, 3, 6, 7,
    1, 0, 4, 1, 4, 5
  ]

  /** The wire cube: front square, back square, four side edges. */
  const CubeWireIndices: seq<int> := [
    0, 1, 1, 2, 2, 3, 3, 0,
    5, 4, 4, 7, 7, 6, 6, 5,
    0, 4, 3, 7, 1, 5, 2, 6
  ]

  /** Corners p and q lie on a common face of the cube. */
  predicate OnCommonFace(p: Vec3, q: Vec3, r: Vec3) {
    (p.x == q.x == r.x) || (p.y == q.y == r.y) || (p.z == q.z == r.z)
  }

  /** Corners p and q are joined by an edge of the cube: they differ in exactly
      one coordinate. */
  predicate IsEdge(p: Vec3, q: Vec3) {
    (if p.x != q.x then 1 else 0) + (if p.y != q.y then 1 else 0) + (if p.z != q.z then 1 else 0) == 1
  }

  /** 36 filled and 24 wire indices, all naming one of the 8 corners. */
  lemma CubeIndicesBelow()
    ensures |CubeIndices| == 36 && |CubeWireIndices| == 24
    ensures AllBelow(CubeIndices, |CubeCorners|) && AllBelow(CubeWireIndices, |CubeCorners|)
  {
  }

  /** Every filled triangle has three distinct corners on one face of the cube. */
  lemma CubeTrianglesOnFaces(t: int)
    requires 0 <= t < 12
    ensures CubeTriangleOnFace(t)
  {
    if t < 2 {
      CubeFrontFace(t);
    } else if t < 4 {
      CubeRightFace(t);
    } else if t < 6 {
      CubeLeftFace(t);
    } else if t < 8 {
      CubeBackFace(t);
    } else if t < 10 {
      CubeTopFace(t);
    } else {
      CubeBottomFace(t);
    }
  }

  lemma CubeFrontFace(t: int)
    requires 0 <= t < 2
    ensures CubeTriangleOnFace(t)
  {
    if t == 0 {
      assert CubeIndices[0] == 0 && CubeIndices[1] == 1 && CubeIndices[2] == 2;
    } else {
      assert CubeIndices[3] == 0 && CubeIndices[4] == 2 && CubeIndices[5] == 3;
    }
  }

  lemma CubeRightFace(t: int)
    requires 2 <= t < 4
    ensures CubeTriangleOnFace(t)
  {
    if t == 2 {
      assert CubeIndices[6] == 1 && CubeIndices[7] == 5 && CubeIndices[8] == 6;
    } else {
      assert CubeIndices[9] == 1 && CubeIndices[10] == 6 && CubeIndices[11] == 2;
    }
  }

  lemma CubeLeftFace(t: int)
    requires 4 <= t < 6
    ensures CubeTriangleOnFace(t)
  {
    if t == 4 {
      assert CubeIndices[12] == 4 && CubeIndices[13] == 0 && CubeIndices[14] == 3;
    } else {
      assert CubeIndices[15] == 4 && CubeIndices[16] == 3 && CubeIndices[17] == 7;
    }
  }

  lemma CubeBackFace(t: int)
    requires 6 <= t < 8
    ensures CubeTriangleOnFace(t)
  {
    if t == 6 {
      assert CubeIndices[18] == 5 && CubeIndices[19] == 4 && CubeIndices[20] == 7;
    } else {
      assert CubeIndices[21] == 5 && CubeIndices[22] == 7 && CubeIndices[23] == 6;
    }
  }

  lemma CubeTopFace(t: int)
    requires 8 <= t < 10
    ensures CubeTriangleOnFace(t)
  {
    if t == 8 {
      assert CubeIndices[24] == 3 && CubeIndices[25] == 2 && CubeIndices[26] == 6;
    } else {
      assert CubeIndices[27] == 3 && CubeIndices[28] == 6 && CubeIndices[29] == 7;
    }
  }

  lemma CubeBottomFace(t: int)
    requires 10 <= t < 12
    ensures CubeTriangleOnFace(t)
  {
    if t == 10 {
      assert CubeIndices[30] == 1 && CubeIndices[31] == 0 && CubeIndices[32] == 4;
    } else {
      assert CubeIndices[33] == 1 && CubeIndices[34] == 4 && CubeIndices[35] == 5;
    }
  }

  /** Every wire pair is an edge of the cube. */
  lemma CubeWirePairsAreEdges(e: int)
    requires 0 <= e < 12
    ensures CubeWirePairIsEdge(e)
  {
    if e < 4 {
      CubeWireFront(e);
    } else if e < 8 {
      CubeWireBack(e);
    } else {
      CubeWireSides(e);
    }
  }

  /** The pairs of the front square. */
  lemma CubeWireFront(e: int)
    requires 0 <= e < 4
    ensures CubeWirePairIsEdge(e)
  {
    if e == 0 {
      assert CubeWireIndices[0] == 0 && CubeWireIndices[1] == 1;
    } else if e == 1 {
      assert CubeWireIndices[2] == 1 && CubeWireIndices[3] == 2;
    } else if e == 2 {
      assert CubeWireIndices[4] == 2 && CubeWireIndices[5] == 3;
    } else {
      assert CubeWireIndices[6] == 3 && CubeWireIndices[7] == 0;
    }
  }

  /** The pairs of the back square. */
  lemma CubeWireBack(e: int)
    requires 4 <= e < 8
    ensures CubeWirePairIsEdge(e)
  {
    if e == 4 {
      assert CubeWireIndices[8] == 5 && CubeWireIndices[9] == 4;
    } else if e == 5 {
      assert CubeWireIndices[10] == 4 && CubeWireIndices[11] == 7;
    } else if e == 6 {
      assert CubeWireIndices[12] == 7 && CubeWireIndices[13] == 6;
    } else {
      assert CubeWireIndices[14] == 6 && CubeWireIndices[15] == 5;
    }
  }

  /** The pairs of the four side edges. */
  lemma CubeWireSides(e: int)
    requires 8 <= e < 12
    ensures CubeWirePairIsEdge(e)
  {
    if e == 8 {
      assert CubeWireIndices[16] == 0 && CubeWireIndices[17] == 4;
    } else if e == 9 {
      assert CubeWireIndices[18] == 3 && CubeWireIndices[19] == 7;
    } else if e == 10 {
      assert CubeWireIndices[20] == 1 && CubeWireIndices[21] == 5;
    } else {
      assert CubeWireIndices[22] == 2 && CubeWireIndices[23] == 6;
    }
  }

  predicate CubeTriangleOnFace(t: int)
    requires 0 <= t < 12
  {
    var a := CubeIndices[3 * t];
    var b := CubeIndices[3 * t + 1];
    var c := CubeIndices[3 * t + 2];
    0 <= a < 8 && 0 <= b < 8 && 0 <= c < 8 && a != b && b != c && a != c
    && OnCommonFace(CubeCorners[a], CubeCorners[b], CubeCorners[c])
  }

  predicate CubeWirePairIsEdge(e: int)
    requires 0 <= e < 12
  {
    var a := CubeWireIndices[2 * e];
    var b := CubeWireIndices[2 * e + 1];
    0 <= a < 8 && 0 <= b < 8 && IsEdge(CubeCorners[a], CubeCorners[b])
  }

  // ---------------------------------------------------------------------
  // CylinderMesh::init(facets, segments)

  /** Index of the first vertex of ring s. */
  function RingStart(facets: nat, s: int): int {
    1 + facets * s
  }

  function CylinderVertexCount(facets: nat, segments: nat): nat {
    2 + facets * (segments + 1)
  }

  /** The first n vertices of ring s. */
  function RingPoints(facets: nat, segments: nat, s: int, n: nat): (vs: seq<Point>)
    ensures |vs| == n
  {
    if n == 0 then []
    else RingPoints(facets, segments, s, n - 1) + [OnCircle(n - 1, facets, 0.5, Layer(s, segments))]
  }

  /** Rings 0 .. n-1. */
  function Rings(facets: nat, segments: nat, n: nat): (vs: seq<Point>)
    ensures |vs| == facets * n
  {
    if n == 0 then []
    else Rings(facets, segments, n - 1) + RingPoints(facets, segments, n - 1, facets)
  }

  /** Top centre, the segments + 1 rings from top to bottom, bottom centre. */
  function CylinderVertices(facets: nat, segments: nat): seq<Point> {
    [At(Vec3(0.0, 0.5, 0.0))] + Rings(facets, segments, segments + 1) + [At(Vec3(0.0, -0.5, 0.0))]
  }

  lemma {:induction false} RingPointAt(facets: nat, segments: nat, s: int, n: nat, f: nat)
    requires f < n
    ensures RingPoints(facets, segments, s, n)[f] == OnCircle(f, facets, 0.5, Layer(s, segments))
  {
    if f < n - 1 {
      RingPointAt(facets, segments, s, n - 1, f);
    }
  }

  lemma {:induction false} RingsAt(facets: nat, segments: nat, n: nat, s: nat, f: nat)
    requires s < n && f < facets
    ensures facets * s + f < facets * n
    ensures Rings(facets, segments, n)[facets * s + f] == OnCircle(f, facets, 0.5, Layer(s, segments))
  {
    assert facets * n == facets * (n - 1) + facets;
    if s < n - 1 {
      MulMonotone(facets, s + 1, n - 1);
      RingsAt(facets, segments, n - 1, s, f);
    } else {
      RingPointAt(facets, segments, s, facets, f);
    }
  }

  /** The vertex an index RingStart(s) + f names is facet f of ring s, at the
      ring's layer: the index arithmetic and the vertex layout agree. */
  lemma CylinderVertexAt(facets: nat, segments: nat, s: nat, f: nat)
    requires s <= segments && f < facets
    ensures RingStart(facets, s) + f < CylinderVertexCount(facets, segments) - 1
    ensures CylinderVertices(facets, segments)[RingStart(facets, s) + f]
            == OnCircle(f, facets, 0.5, Layer(s, segments))
  {
    RingsAt(facets, segments, segments + 1, s, f);
  }

  /** The triangle of a cap for facet f: centre, next ring vertex, this one. */
  function CapTriangle(center: int, facets: nat, offset: int, f: int): seq<int> {
    [center, NextInRing(facets, offset, f), f + offset]
  }

  /** The first n triangles of a cap. */
  function Cap(center: int, facets: nat, offset: int, n: nat): (xs: seq<int>)
    ensures |xs| == 3 * n
  {
    if n == 0 then [] else Cap(center, facets, offset, n - 1) + CapTriangle(center, facets, offset, n - 1)
  }

  /** The two side triangles between facet f of a ring and the ring below. */
  function SideQuad(facets: nat, offset: int, f: int): seq<int> {
    var i := f + offset;
    var next := NextInRing(facets, offset, f);
    [i, next, i + facets, next, next + facets, i + facets]
  }

  /** The first n side quads below the ring starting at offset. */
  function SideRing(facets: nat, offset: int, n: nat): (xs: seq<int>)
    ensures |xs| == 6 * n
  {
    if n == 0 then [] else SideRing(facets, offset, n - 1) + SideQuad(facets, offset, n - 1)
  }

  /** The side quads of the first n segments. */
  function Sides(facets: nat, n: nat): (xs: seq<int>)
    ensures |xs| == 6 * facets * n
  {
    if n == 0 then [] else Sides(facets, n - 1) + SideRing(facets, RingStart(facets, n - 1), facets)
  }

  /** Top cap (centre 0), bottom cap (centre after the last ring), then the sides. */
  function CylinderIndices(facets: nat, segments: nat): seq<int> {
    Cap(0, facets, RingStart(facets, 0), facets)
      + Cap(RingStart(facets, segments + 1), facets, RingStart(facets, segments), facets)
      + Sides(facets, segments)
  }

  /** The first n entries of one wire ring. */
  function WireRing(offset: int, n: nat): (xs: seq<int>)
    ensures |xs| == n
  {
    if n == 0 then [] else WireRing(offset, n - 1) + [offset + n - 1]
  }

  /** The first n wire rings, each closed by repeating its first index. */
  function CylinderWire(facets: nat, n: nat): (xs: seq<int>)
    ensures |xs| == n * (facets + 1)
  {
    if n == 0 then []
    else CylinderWire(facets, n - 1) + WireRing(RingStart(facets, n - 1), facets) + [RingStart(facets, n - 1)]
  }

  lemma {:induction false} CapBelow(center: int, facets: nat, offset: int, n: nat, count: int)
    requires n <= facets && 0 <= center < count && 0 <= offset && offset + facets <= count
    ensures AllBelow(Cap(center, facets, offset, n), count)
  {
    if n > 0 {
      CapBelow(center, facets, offset, n - 1, count);
      AllBelowConcat(Cap(center, facets, offset, n - 1), CapTriangle(center, facets, offset, n - 1), count);
    }
  }

  lemma {:induction false} SideRingBelow(facets: nat, offset: int, n: nat, count: int)
    requires n <= facets && 0 <= offset && offset + 2 * facets <= count
    ensures AllBelow(SideRing(facets, offset, n), count)
  {
    if n > 0 {
      SideRingBelow(facets, offset, n - 1, count);
      AllBelowConcat(SideRing(facets, offset, n - 1), SideQuad(facets, offset, n - 1), count);
    }
  }

  lemma {:induction false} SidesBelow(facets: nat, n: nat, count: int)
    requires RingStart(facets, n + 1) <= count
    ensures AllBelow(Sides(facets, n), count)
  {
    if n > 0 {
      assert RingStart(facets, n + 1) == RingStart(facets, n) + facets;
      assert RingStart(facets, n) == RingStart(facets, n - 1) + facets;
      SidesBelow(facets, n - 1, count);
      MulMonotone(facets, 0, n - 1);
      SideRingBelow(facets, RingStart(facets, n - 1), facets, count);
      AllBelowConcat(Sides(facets, n - 1), SideRing(facets, RingStart(facets, n - 1), facets), count);
    }
  }

  lemma {:induction false} WireRingBelow(offset: int, n: nat, count: int)
    requires 0 <= offset && offset + n <= count
    ensures AllBelow(WireRing(offset, n), count)
  {
    if n > 0 {
      WireRingBelow(offset, n - 1, count);
    }
  }

  lemma {:induction false} CylinderWireBelow(facets: nat, n: nat, count: int)
    requires RingStart(facets, n) < count
    ensures AllBelow(CylinderWire(facets, n), count)
  {
    if n > 0 {
      assert RingStart(facets, n) == RingStart(facets, n - 1) + facets;
      MulMonotone(facets, 0, n - 1);
      CylinderWireBelow(facets, n - 1, count);
      WireRingBelow(RingStart(facets, n - 1), facets, count);
      AllBelowConcat(CylinderWire(facets, n - 1), WireRing(RingStart(facets, n - 1), facets), count);
      AllBelowConcat(CylinderWire(facets, n - 1) + WireRing(RingStart(facets, n - 1), facets),
                     [RingStart(facets, n - 1)], count);
    }
  }

  /** Every filled index names a vertex, for every facet and segment count;
      this is what the run-time check after the index loops looks for. */
  lemma CylinderIndicesBelow(facets: nat, segments: nat)
    ensures AllBelow(CylinderIndices(facets, segments), CylinderVertexCount(facets, segments))
  {
    var count := CylinderVertexCount(facets, segments);
    assert RingStart(facets, segments + 1) == count - 1;
    assert RingStart(facets, segments + 1) == RingStart(facets, segments) + facets;
    MulMonotone(facets, 0, segments);
    CapBelow(0, facets, RingStart(facets, 0), facets, count);
    CapBelow(RingStart(facets, segments + 1), facets, RingStart(facets, segments), facets, count);
    SidesBelow(facets, segments, count);
    var top := Cap(0, facets, RingStart(facets, 0), facets);
    var bottom := Cap(RingStart(facets, segments + 1), facets, RingStart(facets, segments), facets);
    AllBelowConcat(top, bottom, count);
    AllBelowConcat(top + bottom, Sides(facets, segments), count);
  }

  /** Entry facets of each wire ring repeats the ring's first index, closing it. */
  lemma {:induction false} CylinderWireClosed(facets: nat, n: nat, r: nat)
    requires r < n
    ensures (r + 1) * (facets + 1) <= |CylinderWire(facets, n)|
    ensures CylinderWire(facets, n)[r * (facets + 1) + facets] == RingStart(facets, r)
  {
    var prev := CylinderWire(facets, n - 1);
    assert n * (facets + 1) == (n - 1) * (facets + 1) + facets + 1;
    if r < n - 1 {
      assert (r + 1) * (facets + 1) <= (n - 1) * (facets + 1) by {
        MulMonotone(facets + 1, r + 1, n - 1);
      }
      CylinderWireClosed(facets, n - 1, r);
    } else {
      assert |prev| == r * (facets + 1);
    }
  }

  /** CylinderMesh::init(facets, segments): builds the vertices ring by ring,
      the filled indices cap by cap and segment by segment, runs the index
      check, and builds the closed wire rings. */
  method CylinderInit(facets: nat, segments: nat)
    returns (vertices: seq<Point>, indices: seq<int>, indexErrors: nat, wireIndices: seq<int>)
    ensures vertices == CylinderVertices(facets, segments)
    ensures |vertices| == CylinderVertexCount(facets, segments)
    ensures indices == CylinderIndices(facets, segments)
    ensures |indices| == 3 * facets + 3 * facets + 6 * facets * segments
    ensures AllBelow(indices, |vertices|) && indexErrors == 0
    ensures wireIndices == CylinderWire(facets, segments + 1)
    ensures |wireIndices| == (segments + 1) * (facets + 1)
    ensures AllBelow(wireIndices, |vertices|)
  {
    vertices := CylinderRingVertices(facets, segments);
    indices := CylinderCapIndices(facets, segments);
    indices := CylinderSideIndices(facets, segments, indices);
    CylinderIndicesBelow(facets, segments);
    indexErrors := CountIndexErrors(indices, |vertices|);
    ErrorCountZero(indices, |vertices|);
    wireIndices := CylinderWireIndices(facets, segments);
    MulMonotone(facets, segments + 1, segments + 1);
    CylinderWireBelow(facets, segments + 1, |vertices|);
  }

  /** The vertex loops of CylinderMesh::init. */
  method CylinderRingVertices(facets: nat, segments: nat) returns (vertices: seq<Point>)
    ensures vertices == CylinderVertices(facets, segments)
  {
    vertices := [At(Vec3(0.0, 0.5, 0.0))];
    var s := 0;
    while s <= segments
      invariant 0 <= s <= segments + 1
      invariant vertices == [At(Vec3(0.0, 0.5, 0.0))] + Rings(facets, segments, s)
    {
      var f := 0;
      while f < facets
        invariant 0 <= f <= facets
        invariant vertices == [At(Vec3(0.0, 0.5, 0.0))] + Rings(facets, segments, s)
                              + RingPoints(facets, segments, s, f)
      {
        vertices := vertices + [OnCircle(f, facets, 0.5, Layer(s, segments))];
        f := f + 1;
      }
      s := s + 1;
    }
    vertices := vertices + [At(Vec3(0.0, -0.5, 0.0))];
  }

  /** The top-cap and bottom-cap loops of CylinderMesh::init. */
  method CylinderCapIndices(facets: nat, segments: nat) returns (indices: seq<int>)
    ensures indices == Cap(0, facets, RingStart(facets, 0), facets)
                     + Cap(RingStart(facets, segments + 1), facets, RingStart(facets, segments), facets)
  {
    indices := [];
    var offset := 1;
    var f := 0;
    while f < facets
      invariant 0 <= f <= facets
      invariant indices == Cap(0, facets, offset, f)
    {
      var i := f + offset;
      indices := indices + [0, if f < facets - 1 then i + 1 else offset, i];
      f := f + 1;
    }
    var top := indices;
    offset := 1 + facets * segments;
    var bottomMiddle := 1 + facets * (segments + 1);
    f := 0;
    while f < facets
      invariant 0 <= f <= facets
      invariant indices == top + Cap(bottomMiddle, facets, offset, f)
    {
      var i := f + offset;
      indices := indices + [bottomMiddle, if f < facets - 1 then i + 1 else offset, i];
      f := f + 1;
    }
  }

  /** The side loops of CylinderMesh::init, appending to the cap indices. */
  method CylinderSideIndices(facets: nat, segments: nat, caps: seq<int>) returns (indices: seq<int>)
    ensures indices == caps + Sides(facets, segments)
  {
    indices := caps;
    var s := 0;
    while s < segments
      invariant 0 <= s <= segments
      invariant indices == caps + Sides(facets, s)
    {
      var ring := SideRingIndices(facets, 1 + facets * s);
      indices := indices + ring;
      s := s + 1;
    }
  }

  /** The inner side loop: the two triangles of every quad between the ring
      starting at `offset` and the ring below it. */
  method SideRingIndices(facets: nat, offset: int) returns (ring: seq<int>)
    ensures ring == SideRing(facets, offset, facets)
  {
    ring := [];
    var f := 0;
    while f < facets
      invariant 0 <= f <= facets
      invariant ring == SideRing(facets, offset, f)
    {
      var i := f + offset;
      var iPlus1 := if f < facets - 1 then i + 1 else offset;
      ring := ring + [i, iPlus1, i + facets] + [iPlus1, iPlus1 + facets, i + facets];
      f := f + 1;
    }
  }

  /** The wire-ring loops of CylinderMesh::init. */
  method CylinderWireIndices(facets: nat, segments: nat) returns (wireIndices: seq<int>)
    ensures wireIndices == CylinderWire(facets, segments + 1)
  {
    wireIndices := [];
    var s := 0;
    while s <= segments
      invariant 0 <= s <= segments + 1
      invariant wireIndices == CylinderWire(facets, s)
    {
      var f := 0;
      while f < facets
        invariant 0 <= f <= facets
        invariant wireIndices == CylinderWire(facets, s) + WireRing(RingStart(facets, s), f)
      {
        wireIndices := wireIndices + [1 + s * facets + f];
        f := f + 1;
      }
      wireIndices := wireIndices + [1 + s * facets];
      s := s + 1;
    }
  }

  // ---------------------------------------------------------------------
  // SphereMesh::init(n)

  /** SphereMesh::init(n): 12 * 4^n vertices for n >= 0, the four faces of the
      tetrahedron subdivided n times, each face's list starting at its first corner. */
  lemma SphereInitCount(n: nat)
    ensures |SphereVertices(n)| == 12 * Pow4(n)
    ensures SphereVertices(n)[0] == Tetrahedron[0]
    ensures SphereVertices(n)[3 * Pow4(n)] == Tetrahedron[3]
  {
  }

  // ---------------------------------------------------------------------
  // Stars::init, shipParticles::init, Ship::init

  /** The three rand() values one vertex consumes. */
  datatype Draw3 = Draw3(x: int, y: int, z: int)

  predicate IsDraw3(d: Draw3) {
    GlUtilities.IsDraw(d.x) && GlUtilities.IsDraw(d.y) && GlUtilities.IsDraw(d.z)
  }

  function Star(d: Draw3): Vec3 {
    Vec3(GlUtilities.RandRange(-130.0, 130.0, d.x), GlUtilities.RandRange(-130.0, 130.0, d.y),
         GlUtilities.RandRange(-130.0, 130.0, d.z))
  }

  predicate InStarBox(v: Vec3) {
    -130.0 <= v.x <= 130.0 && -130.0 <= v.y <= 130.0 && -130.0 <= v.z <= 130.0
  }

  /** Stars::init: 4000 points, each coordinate drawn from [-130, 130]. */
  method StarsInit(draws: seq<Draw3>) returns (vertices: seq<Vec3>)
    requires |draws| >= 4000 && forall k :: 0 <= k < |draws| ==> IsDraw3(draws[k])
    ensures |vertices| == 4000
    ensures forall k :: 0 <= k < 4000 ==> vertices[k] == Star(draws[k]) && InStarBox(vertices[k])
  {
    vertices := [];
    var i := 0;
    while i < 4000
      invariant 0 <= i <= 4000 && |vertices| == i
      invariant forall k :: 0 <= k < i ==> vertices[k] == Star(draws[k]) && InStarBox(vertices[k])
    {
      vertices := vertices + [Star(draws[i])];
      i := i + 1;
    }
  }

  /** The two rand() values one exhaust particle consumes. */
  datatype Draw2 = Draw2(x: int, z: int)

  function Particle(xBound: real, zBound: real, d: Draw2): Vec3 {
    Vec3(GlUtilities.RandRange(-xBound, xBound, d.x), 0.0, GlUtilities.RandRange(-zBound, zBound, d.z))
  }

  /** shipParticles::init: 12 points in the plane y = 0, point f drawn from the
      box whose half-sides are sin and cos of f/30 of a turn, times 0.15; those
      two values are passed in as xBounds[f] and zBounds[f]. */
  method ShipParticlesInit(xBounds: seq<real>, zBounds: seq<real>, draws: seq<Draw2>)
    returns (vertices: seq<Vec3>)
    requires |xBounds| >= 12 && |zBounds| >= 12 && |draws| >= 12
    requires forall k :: 0 <= k < |draws| ==> GlUtilities.IsDraw(draws[k].x) && GlUtilities.IsDraw(draws[k].z)
    requires forall k :: 0 <= k < |xBounds| ==> -0.15 <= xBounds[k] <= 0.15
    requires forall k :: 0 <= k < |zBounds| ==> -0.15 <= zBounds[k] <= 0.15
    ensures |vertices| == 12
    ensures forall k :: 0 <= k < 12 ==> vertices[k] == Particle(xBounds[k], zBounds[k], draws[k])
    ensures forall k :: 0 <= k < 12 ==>
              vertices[k].y == 0.0 && -0.15 <= vertices[k].x <= 0.15 && -0.15 <= vertices[k].z <= 0.15
  {
    vertices := [];
    var f := 0;
    while f < 12
      invariant 0 <= f <= 12 && |vertices| == f
      invariant forall k :: 0 <= k < f ==> vertices[k] == Particle(xBounds[k], zBounds[k], draws[k])
      invariant forall k :: 0 <= k < f ==>
                  vertices[k].y == 0.0 && -0.15 <= vertices[k].x <= 0.15 && -0.15 <= vertices[k].z <= 0.15
    {
      vertices := vertices + [Particle(xBounds[f], zBounds[f], draws[f])];
      f := f + 1;
    }
  }

  /** Ship::init: the ship's wire frame as 21 line segments, one per pair. */
  const ShipVertices: seq<Vec3> := [
    Vec3(0.0, 0.0, 1.0), Vec3(0.0, 0.0, -1.0),
    Vec3(0.0, 0.0, 1.0), Vec3(-1.0, 0.6, 0.0),
    Vec3(0.0, 0.0, -1.0), Vec3(-1.0, 0.6, 0.0),
    Vec3(0.0, 0.0, -1.0), Vec3(0.0, 1.0, 0.0),
    Vec3(0.0, 0.0, 1.0), Vec3(0.0, 1.0, 0.0),
    Vec3(0.0, 1.0, 0.0), Vec3(-1.0, 0.6, 0.0),
    Vec3(0.0, 0.0, -1.0), Vec3(2.0, 0.0, 0.0),
    Vec3(0.0, 0.0, 1.0), Vec3(2.0, 0.0, 0.0),
    Vec3(2.0, 0.0, 0.0), Vec3(0.0, 1.0, 0.0),
    Vec3(0.0, 0.0, 1.0), Vec3(0.3, -0.1, 3.0),
    Vec3(0.0, 0.0, -1.0), Vec3(0.3, -0.1, -3.0),
    Vec3(0.0, 0.0, 1.0), Vec3(-0.6, 0.0, 1.3),
    Vec3(-0.6, 0.0, 1.3), Vec3(0.3, -0.1, 3.0),
    Vec3(0.0, 0.0, -1.0), Vec3(-0.6, 0.0, -1.3),
    Vec3(-0.6, 0.0, -1.3), Vec3(0.3, -0.1, -3.0),
    Vec3(0.0, 0.0, 1.0), Vec3(-0.3, 1.0, 1.3),
    Vec3(0.0, 0.0, -1.0), Vec3(-0.3, 1.0, -1.3),
    Vec3(0.0, 0.0, 1.0), Vec3(-1.6, 1.5, 1.5),
    Vec3(0.0, 0.0, -1.0), Vec3(-1.6, 1.5, -1.5),
    Vec3(-1.6, 1.5, 1.5), Vec3(-0.3, 1.0, 1.3),
    Vec3(-1.6, 1.5, -1.5), Vec3(-0.3, 1.0, -1.3)
  ]

  /** 42 vertices, an even number, drawn as 21 non-degenerate line segments
      inside the box [-1.6, 2] x [-0.1, 1.5] x [-3, 3]. */
  lemma ShipFrame()
    ensures |ShipVertices| == 42 && |ShipVertices| % 2 == 0
    ensures forall k :: 0 <= k < 21 ==> ShipVertices[2 * k] != ShipVertices[2 * k + 1]
    ensures forall k :: 0 <= k < 42 ==>
              -1.6 <= ShipVertices[k].x <= 2.0 && -0.1 <= ShipVertices[k].y <= 1.5
              && -3.0 <= ShipVertices[k].z <= 3.0
  {
  }
}
