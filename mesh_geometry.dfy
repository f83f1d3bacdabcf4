/** Vertex values shared by the unlit and the lit meshes, the recursive sphere
    subdivision both mesh families use, and the index-range check both cylinder
    builders run after building their index lists.  Coordinates that the source
    computes with sin, cos or a square root are kept symbolic. */
module MeshGeometry {

  datatype Vec2 = Vec2(x: real, y: real)
  datatype Vec3 = Vec3(x: real, y: real, z: real)

  function Add(a: Vec3, b: Vec3): Vec3 {
    Vec3(a.x + b.x, a.y + b.y, a.z + b.z)
  }

  function Sub(a: Vec3, b: Vec3): Vec3 {
    Vec3(a.x - b.x, a.y - b.y, a.z - b.z)
  }

  function Scale(k: real, a: Vec3): Vec3 {
    Vec3(k * a.x, k * a.y, k * a.z)
  }

  /** The height of a ring: a fixed level, or layer `segment` of a cylinder cut
      into `segments`, i.e. 0.5 - segment * (1 / segments). */
  datatype Height = Level(y: real) | Layer(segment: int, segments: int)

  /** A vertex position or normal.  OnCircle(f, F, r, h) stands for
      (sin(2 pi f / F) * r, h, cos(2 pi f / F) * r); UnitSum(a, b) for
      unit(a + b); Along(p, n, k) for p + k * n. */
  datatype Point =
    | At(v: Vec3)
    | OnCircle(facet: int, facets: int, radius: real, height: Height)
    | UnitSum(a: Point, b: Point)
    | Along(p: Point, n: Point, k: real)

  /** A lit vertex: a position with its normal. */
  datatype Vertex = Vertex(position: Point, normal: Point)

  /** The eight corners v0..v7 of the unit cube. */
  const CubeCorners: seq<Vec3> := [
    Vec3(-0.5, -0.5, 0.5), Vec3(0.5, -0.5, 0.5), Vec3(0.5, 0.5, 0.5), Vec3(-0.5, 0.5, 0.5),
    Vec3(-0.5, -0.5, -0.5), Vec3(0.5, -0.5, -0.5), Vec3(0.5, 0.5, -0.5), Vec3(-0.5, 0.5, -0.5)
  ]

  /** The index after f + offset around a ring of `facets` vertices, wrapping
      the last facet back to the ring's start. */
  function NextInRing(facets: nat, offset: int, f: int): int {
    if f < facets - 1 then f + offset + 1 else offset
  }

  /** Every index addresses one of `count` vertices. */
  predicate AllBelow(xs: seq<int>, count: int) {
    forall k :: 0 <= k < |xs| ==> 0 <= xs[k] < count
  }

  lemma AllBelowConcat(xs: seq<int>, ys: seq<int>, count: int)
    requires AllBelow(xs, count) && AllBelow(ys, count)
    ensures AllBelow(xs + ys, count)
  {
  }

  /** The index the run-time check rejects: greater than count - 1. */
  predicate OutOfRange(index: int, count: int) {
    index > count - 1
  }

  /** How many entries of xs the run-time check reports. */
  function ErrorCount(xs: seq<int>, count: int): (n: nat)
    ensures n <= |xs|
  {
    if |xs| == 0 then 0
    else ErrorCount(xs[..|xs| - 1], count) + (if OutOfRange(xs[|xs| - 1], count) then 1 else 0)
  }

  /** The index test reports nothing exactly when no index reaches the vertex count. */
  lemma {:induction false} ErrorCountZero(xs: seq<int>, count: int)
    requires forall k :: 0 <= k < |xs| ==> xs[k] >= 0
    ensures ErrorCount(xs, count) == 0 <==> AllBelow(xs, count)
  {
    if |xs| > 0 {
      var init := xs[..|xs| - 1];
      assert forall k :: 0 <= k < |init| ==> init[k] == xs[k];
      ErrorCountZero(init, count);
      if AllBelow(xs, count) {
        assert AllBelow(init, count);
      }
      if ErrorCount(xs, count) == 0 {
        assert forall k :: 0 <= k < |xs| - 1 ==> xs[k] == init[k];
      }
    }
  }

  /** The loop that prints "index error" for every index above the last vertex;
      the result is how many times it would print. */
  method CountIndexErrors(indices: seq<int>, vertexCount: int) returns (errors: nat)
    ensures errors == ErrorCount(indices, vertexCount)
  {
    errors := 0;
    var i := 0;
    while i < |indices|
      invariant 0 <= i <= |indices|
      invariant errors == ErrorCount(indices[..i], vertexCount)
    {
      assert indices[..i + 1][..i] == indices[..i];
      if OutOfRange(indices[i], vertexCount) {
        errors := errors + 1;
      }
      i := i + 1;
    }
    assert indices[..i] == indices;
  }

  function Pow4(n: nat): (p: nat)
    ensures p >= 1
  {
    if n == 0 then 1 else 4 * Pow4(n - 1)
  }

  /** divide_triangle(a, b, c, n): n levels of splitting each triangle into four
      at the normalised midpoints of its edges; the corners come out in the
      order of the source's four recursive calls. */
  function DivideTriangle(a: Point, b: Point, c: Point, n: int): (vs: seq<Point>)
    ensures n <= 0 ==> vs == [a, b, c]
    ensures n >= 0 ==> |vs| == 3 * Pow4(n)
    ensures |vs| > 0 && vs[0] == a
    decreases n
  {
    if n > 0 then
      var v1 := UnitSum(a, b);
      var v2 := UnitSum(a, c);
      var v3 := UnitSum(b, c);
      DivideTriangle(a, v2, v1, n - 1) + DivideTriangle(c, v3, v2, n - 1)
        + DivideTriangle(b, v1, v3, n - 1) + DivideTriangle(v1, v2, v3, n - 1)
    else
      [a, b, c]
  }

  /** The four corners of the tetrahedron the spheres start from. */
  const Tetrahedron: seq<Point> := [
    At(Vec3(0.0, 0.0, 1.0)),
    At(Vec3(0.0, 0.942809, -0.333333)),
    At(Vec3(-0.816497, -0.471405, -0.333333)),
    At(Vec3(0.816497, -0.471405, -0.333333))
  ]

  /** The vertex list of SphereMesh::init and LitSphereMesh::init: the four
      faces of the tetrahedron, each subdivided n times. */
  function SphereVertices(n: int): (vs: seq<Point>)
    ensures n >= 0 ==> |vs| == 12 * Pow4(n)
    ensures n <= 0 ==> |vs| == 12
  {
    var v := Tetrahedron;
    DivideTriangle(v[0], v[1], v[2], n) + DivideTriangle(v[3], v[2], v[1], n)
      + DivideTriangle(v[0], v[3], v[1], n) + DivideTriangle(v[0], v[2], v[3], n)
  }

  /** Products used by the index bounds. */
  lemma MulMonotone(a: nat, b: nat, c: nat)
    requires b <= c
    ensures a * b <= a * c
  {
  }
}
