/**
  The scene objects of scripts/RayTrace/Objects.cpp: the base `Object`, the
  `Triangle` with its cached edges and normal, the `TriangleMesh` with its
  per-face edge and normal caches, and the `DistantLightSource`.

  Objects are shared through `shared_ptr` and updated in place, so each is a
  class; `SceneObject` stands for a `shared_ptr<Object>` together with its
  dynamic type.
 */
module Objects {
  import opened Exceptions
  import opened Vectors
  import opened Utils
  import opened Materials

  /** `ObjectType`. */
  datatype ObjectType = BASE | TRIANGLE | TRIANGLE_MESH | SPHERE | CHESSBOARD

  /** The base `Object`: a colour and an albedo. */
  class Object {
    var color: Vec3
    var albedo: real

    /**
      `Object()`. The source assigns `Utils::BASE_COLOR`, which the constants
      header does not define, and the vector `BASE_ALBEDO` to a double; the
      model leaves both fields unspecified.
     */
    constructor ()
    {
    }

    /** `SetAlbedo` */
    method SetAlbedo(albedo': real)
      modifies this`albedo
      ensures albedo == albedo'
      ensures GetAlbedo(Base(this)) == albedo'
    {
      albedo := albedo';
    }

    /** `SetColor` */
    method SetColor(color': Vec3)
      modifies this`color
      ensures color == color'
      ensures GetColor(Base(this)) == color'
    {
      color := color';
    }
  }

  /** The corner made of the smallest coordinates of three points (`std::min` per axis). */
  function MinCorner(a: Vec3, b: Vec3, c: Vec3): (r: Vec3)
    ensures r.x <= a.x && r.x <= b.x && r.x <= c.x && (r.x == a.x || r.x == b.x || r.x == c.x)
    ensures r.y <= a.y && r.y <= b.y && r.y <= c.y && (r.y == a.y || r.y == b.y || r.y == c.y)
    ensures r.z <= a.z && r.z <= b.z && r.z <= c.z && (r.z == a.z || r.z == b.z || r.z == c.z)
  {
    Vec3(Min(Min(a.x, b.x), c.x), Min(Min(a.y, b.y), c.y), Min(Min(a.z, b.z), c.z))
  }

  /** Translating three points translates their minimum corner. */
  lemma MinCornerTranslates(a: Vec3, b: Vec3, c: Vec3, d: Vec3)
    ensures MinCorner(Sub(a, d), Sub(b, d), Sub(c, d)) == Sub(MinCorner(a, b, c), d)
  {
  }

  /**
    A `Triangle`: three corners, the cached edges AB, BC, AC and the unit face
    normal, plus the colour and albedo it inherits and the material that
    `SetMaterial` (whose body is not part of this model) attaches.
   */
  class Triangle {
    var pointA: Vec3
    var pointB: Vec3
    var pointC: Vec3
    var edgeAB: Vec3
    var edgeBC: Vec3
    var edgeAC: Vec3
    var normal: Vec3
    var color: Vec3
    var albedo: real
    var material: Option<Material>

    /** The cached edges and normal agree with the corners. */
    ghost predicate Valid()
      reads this`pointA, this`pointB, this`pointC, this`edgeAB, this`edgeBC, this`edgeAC, this`normal
    {
      && edgeAB == Sub(pointB, pointA)
      && edgeBC == Sub(pointC, pointB)
      && edgeAC == Sub(pointC, pointA)
      && normal == Normalize(Cross(edgeAB, edgeAC))
    }

    /** `Triangle(pointA, pointB, pointC)`: stores the corners and derives the edges and normal. */
    constructor (a: Vec3, b: Vec3, c: Vec3)
      ensures pointA == a && pointB == b && pointC == c
      ensures Valid() && material == None
    {
      pointA, pointB, pointC := a, b, c;
      edgeAB := Sub(b, a);
      edgeBC := Sub(c, b);
      edgeAC := Sub(c, a);
      normal := Normalize(Cross(Sub(b, a), Sub(c, a)));
      material := None;
    }

    /**
      `Triangle::SetCenter`: moves the triangle, all corners by the same vector,
      so that its minimum corner lands on `point`. The cached edges and the
      normal are not recomputed and need not be.
     */
    method SetCenter(point: Vec3)
      requires Valid()
      modifies this`pointA, this`pointB, this`pointC
      ensures Valid()
      ensures MinCorner(pointA, pointB, pointC) == point
      ensures Sub(old(pointA), pointA) == Sub(old(pointB), pointB) == Sub(old(pointC), pointC)
    {
      var bottomLeftCorner := MinCorner(pointA, pointB, pointC);
      var diff := Sub(bottomLeftCorner, point);
      MinCornerTranslates(pointA, pointB, pointC, diff);
      pointA := Sub(pointA, diff);
      pointB := Sub(pointB, diff);
      pointC := Sub(pointC, diff);
    }

    /** `SetColor`, inherited from `Object`. */
    method SetColor(color': Vec3)
      modifies this`color
      ensures color == color'
      ensures GetColor(Tri(this)) == color'
    {
      color := color';
    }

    /** `SetMaterial`: attaches a material. */
    method SetMaterial(material': Material)
      modifies this`material
      ensures material == Some(material')
    {
      material := Some(material');
    }
  }

  // ---------------------------------------------------------------------
  // Triangle meshes
  // ---------------------------------------------------------------------

  /** A face whose three vertex indices lie in a vertex list of length `n`. */
  predicate FaceIn(f: Face, n: int)
  {
    0 <= f.a < n && 0 <= f.b < n && 0 <= f.c < n
  }

  predicate FacesIn(ts: seq<Face>, n: int)
  {
    forall k :: 0 <= k < |ts| ==> FaceIn(ts[k], n)
  }

  /**
    The two edges of a face, (v[t1] - v[t0], v[t2] - v[t0]): the vectors that
    carry the first vertex onto the second and onto the third.
   */
  function FaceEdges(vs: seq<Vec3>, f: Face): (r: (Vec3, Vec3))
    requires FaceIn(f, |vs|)
    ensures Add(vs[f.a], r.0) == vs[f.b] && Add(vs[f.a], r.1) == vs[f.c]
  {
    (Sub(vs[f.b], vs[f.a]), Sub(vs[f.c], vs[f.a]))
  }

  /**
    The unit normal of a face, normalize(first edge x second edge): it is
    perpendicular to both edges of the face.
   */
  function FaceNormal(vs: seq<Vec3>, f: Face): (r: Vec3)
    requires FaceIn(f, |vs|)
    ensures Dot(r, Sub(vs[f.b], vs[f.a])) == 0.0 && Dot(r, Sub(vs[f.c], vs[f.a])) == 0.0
  {
    var e := FaceEdges(vs, f);
    NormalPerpendicular(e.0, e.1);
    Normalize(Cross(e.0, e.1))
  }

  /** The normalized cross product of two edges is perpendicular to each. */
  lemma NormalPerpendicular(a: Vec3, b: Vec3)
    ensures Dot(Normalize(Cross(a, b)), a) == 0.0 && Dot(Normalize(Cross(a, b)), b) == 0.0
  {
    CrossOrthogonal(a, b);
    DotSymmetric(a, Cross(a, b));
    DotSymmetric(b, Cross(a, b));
    hide Dot, Cross;
    NormalizeKeepsDotSign(Cross(a, b), a);
    NormalizeKeepsDotSign(Cross(a, b), b);
  }

  /** The edge cache a mesh must hold: one entry per face, in face order. */
  function EdgeCache(vs: seq<Vec3>, ts: seq<Face>): (r: seq<(Vec3, Vec3)>)
    requires FacesIn(ts, |vs|)
    ensures |r| == |ts|
    ensures forall k :: 0 <= k < |ts| ==> r[k] == FaceEdges(vs, ts[k])
  {
    seq(|ts|, k requires 0 <= k < |ts| => FaceEdges(vs, ts[k]))
  }

  /** The normal cache a mesh must hold: one entry per face, in face order. */
  function NormalCache(vs: seq<Vec3>, ts: seq<Face>): (r: seq<Vec3>)
    requires FacesIn(ts, |vs|)
    ensures |r| == |ts|
    ensures forall k :: 0 <= k < |ts| ==> r[k] == FaceNormal(vs, ts[k])
  {
    seq(|ts|, k requires 0 <= k < |ts| => FaceNormal(vs, ts[k]))
  }

  /**
    A face of a mesh carries the same edges and normal as a `Triangle` built
    from its three corners.
   */
  lemma MeshFaceMatchesTriangle(vs: seq<Vec3>, f: Face, t: Triangle)
    requires FaceIn(f, |vs|)
    requires t.Valid() && t.pointA == vs[f.a] && t.pointB == vs[f.b] && t.pointC == vs[f.c]
    ensures FaceEdges(vs, f) == (t.edgeAB, t.edgeAC)
    ensures FaceNormal(vs, f) == t.normal
  {
  }

  /**
    A `TriangleMesh`: vertices, faces as index triples, and the per-face edge
    and normal caches the intersection test reads.
   */
  class TriangleMesh {
    var vertices: seq<Vec3>
    var triangles: seq<Face>
    var edges: seq<(Vec3, Vec3)>
    var normals: seq<Vec3>
    var color: Vec3
    var albedo: real

    /** Every face indexes existing vertices (the source reads `vertices_[triangle[i]]` unchecked). */
    ghost predicate IndicesValid()
      reads this
    {
      FacesIn(triangles, |vertices|)
    }

    /** One cached edge pair and normal per face, and every face indexes existing vertices. */
    ghost predicate CachesSized()
      reads this
    {
      IndicesValid() && |edges| == |triangles| && |normals| == |triangles|
    }

    /** The caches agree with the vertices and faces. */
    ghost predicate Valid()
      reads this
    {
      IndicesValid() && edges == EdgeCache(vertices, triangles) && normals == NormalCache(vertices, triangles)
    }

    /** `TriangleMesh(vertices, triangles)`: copies the lists and fills the caches. */
    constructor (vertices': seq<Vec3>, triangles': seq<Face>)
      requires FacesIn(triangles', |vertices'|)
      ensures vertices == vertices' && triangles == triangles'
      ensures Valid()
    {
      vertices := vertices';
      triangles := triangles';
      new;
      UpdateEdgesAndNormals();
    }

    /**
      `updateEdgesAndNormals`: clears both caches and refills them face by face.
      Afterwards they hold one entry per face; when they were already up to
      date they come out unchanged, so a second run changes nothing.
     */
    method UpdateEdgesAndNormals()
      requires IndicesValid()
      modifies this`edges, this`normals
      ensures Valid()
      ensures |edges| == |triangles| && |normals| == |triangles|
      ensures old(Valid()) ==> edges == old(edges) && normals == old(normals)
    {
      edges := [];
      normals := [];
      var i := 0;
      while i < |triangles|
        invariant 0 <= i <= |triangles|
        invariant edges == EdgeCache(vertices, triangles[..i])
        invariant normals == NormalCache(vertices, triangles[..i])
      {
        var triangle := triangles[i];
        var pointA := vertices[triangle.At(0)];
        var pointB := vertices[triangle.At(1)];
        var pointC := vertices[triangle.At(2)];
        var edgeAB := Sub(pointB, pointA);
        var edgeAC := Sub(pointC, pointA);
        var normal := Normalize(Cross(edgeAB, edgeAC));
        edges := edges + [(edgeAB, edgeAC)];
        normals := normals + [normal];
        assert triangles[..i + 1] == triangles[..i] + [triangle];
        i := i + 1;
      }
      assert triangles[..i] == triangles;
    }

    /**
      `Fit1x1`: translates the mesh so that its minimum corner is at the origin
      and rescales it so that its x extent becomes `xOffset` (y is scaled by the
      same factor) and its z extent `zOffset`; then recomputes the caches.
     */
    method Fit1x1(xOffset: real, zOffset: real)
      requires IndicesValid()
      requires XScale(vertices) != 0.0 && ZScale(vertices) != 0.0
      modifies this`vertices, this`edges, this`normals
      ensures vertices == Fitted(old(vertices), xOffset, zOffset)
      ensures triangles == old(triangles)
      ensures Valid()
    {
      var bottomLeftCorner, topRightCorner := Corners(vertices);
      var i := 0;
      var xScale := topRightCorner.x - bottomLeftCorner.x;
      var zScale := topRightCorner.z - bottomLeftCorner.z;
      ghost var original := vertices;
      while i < |vertices|
        invariant 0 <= i <= |vertices| == |original|
        invariant forall k :: 0 <= k < i ==>
          vertices[k] == FitVertex(original[k], bottomLeftCorner, xScale, zScale, xOffset, zOffset)
        invariant forall k :: i <= k < |vertices| ==> vertices[k] == original[k]
      {
        var vertex := vertices[i];
        vertices := vertices[i := FitVertex(vertex, bottomLeftCorner, xScale, zScale, xOffset, zOffset)];
        i := i + 1;
      }
      assert vertices == Fitted(original, xOffset, zOffset);
      UpdateEdgesAndNormals();
    }
  }

  // ---------------------------------------------------------------------
  // The fitting arithmetic of Fit1x1
  // ---------------------------------------------------------------------

  /** `std::numeric_limits<double>::lowest()`, the most negative finite double. */
  const LOWEST: real := -DBL_MAX

  /** The running `std::min` of one coordinate over the vertices, in order, from `init`. */
  function MinCoord(vs: seq<Vec3>, axis: nat, init: real): real
    requires axis < DIMS_3D
  {
    if |vs| == 0 then init else Min(MinCoord(vs[..|vs| - 1], axis, init), vs[|vs| - 1].At(axis))
  }

  /** The running `std::max` of one coordinate over the vertices, in order, from `init`. */
  function MaxCoord(vs: seq<Vec3>, axis: nat, init: real): real
    requires axis < DIMS_3D
  {
    if |vs| == 0 then init else Max(MaxCoord(vs[..|vs| - 1], axis, init), vs[|vs| - 1].At(axis))
  }

  /** The first loop of `Fit1x1`: the running per-axis minima and maxima over the vertices. */
  method Corners(vertices: seq<Vec3>) returns (bottomLeftCorner: Vec3, topRightCorner: Vec3)
    ensures bottomLeftCorner == BottomLeft(vertices) && topRightCorner == TopRight(vertices)
  {
    bottomLeftCorner := Vec3(DBL_MAX, DBL_MAX, DBL_MAX);
    topRightCorner := Vec3(LOWEST, DBL_MAX, LOWEST);
    var i := 0;
    while i < |vertices|
      invariant 0 <= i <= |vertices|
      invariant bottomLeftCorner == BottomLeft(vertices[..i])
      invariant topRightCorner == TopRight(vertices[..i])
    {
      var vertex := vertices[i];
      assert vertices[..i + 1][..i] == vertices[..i];
      bottomLeftCorner := Vec3(Min(bottomLeftCorner.x, vertex.x), Min(bottomLeftCorner.y, vertex.y),
                               Min(bottomLeftCorner.z, vertex.z));
      topRightCorner := Vec3(Max(topRightCorner.x, vertex.x), Min(topRightCorner.y, vertex.y),
                             Max(topRightCorner.z, vertex.z));
      i := i + 1;
    }
    assert vertices[..i] == vertices;
  }

  /** `bottomLeftCorner` after the first loop of `Fit1x1`. */
  function BottomLeft(vs: seq<Vec3>): Vec3
  {
    Vec3(MinCoord(vs, 0, DBL_MAX), MinCoord(vs, 1, DBL_MAX), MinCoord(vs, 2, DBL_MAX))
  }

  /** `topRightCorner` after the first loop of `Fit1x1`, its x and z maxima started from `LOWEST`. */
  function TopRight(vs: seq<Vec3>): Vec3
  {
    Vec3(MaxCoord(vs, 0, LOWEST), MinCoord(vs, 1, DBL_MAX), MaxCoord(vs, 2, LOWEST))
  }

  function XScale(vs: seq<Vec3>): real
  {
    TopRight(vs).x - BottomLeft(vs).x
  }

  function ZScale(vs: seq<Vec3>): real
  {
    TopRight(vs).z - BottomLeft(vs).z
  }

  /** One vertex moved and scaled by the second loop of `Fit1x1`. */
  function FitVertex(v: Vec3, bottomLeft: Vec3, xScale: real, zScale: real, xOffset: real, zOffset: real): Vec3
    requires xScale != 0.0 && zScale != 0.0
  {
    Vec3((v.x - bottomLeft.x) / xScale * xOffset,
         (v.y - bottomLeft.y) / xScale * xOffset,
         (v.z - bottomLeft.z) / zScale * zOffset)
  }

  /** The vertex list `Fit1x1` leaves behind. */
  function Fitted(vs: seq<Vec3>, xOffset: real, zOffset: real): (r: seq<Vec3>)
    requires XScale(vs) != 0.0 && ZScale(vs) != 0.0
    ensures |r| == |vs|
  {
    seq(|vs|, k requires 0 <= k < |vs| =>
      FitVertex(vs[k], BottomLeft(vs), XScale(vs), ZScale(vs), xOffset, zOffset))
  }

  /** Every coordinate is a finite double. */
  predicate Finite(vs: seq<Vec3>)
  {
    forall k :: 0 <= k < |vs| ==>
      -DBL_MAX <= vs[k].x <= DBL_MAX && -DBL_MAX <= vs[k].y <= DBL_MAX && -DBL_MAX <= vs[k].z <= DBL_MAX
  }

  /** The running minimum is below every coordinate and the start, and is one of them. */
  lemma {:induction false} MinCoordIsMinimum(vs: seq<Vec3>, axis: nat, init: real)
    requires axis < DIMS_3D
    ensures MinCoord(vs, axis, init) <= init
    ensures forall k :: 0 <= k < |vs| ==> MinCoord(vs, axis, init) <= vs[k].At(axis)
    ensures MinCoord(vs, axis, init) == init || exists k :: 0 <= k < |vs| && MinCoord(vs, axis, init) == vs[k].At(axis)
  {
    if |vs| > 0 {
      var init' := vs[..|vs| - 1];
      MinCoordIsMinimum(init', axis, init);
      assert forall k :: 0 <= k < |init'| ==> init'[k] == vs[k];
    }
  }

  /** The running maximum is above every coordinate and the start, and is one of them. */
  lemma {:induction false} MaxCoordIsMaximum(vs: seq<Vec3>, axis: nat, init: real)
    requires axis < DIMS_3D
    ensures MaxCoord(vs, axis, init) >= init
    ensures forall k :: 0 <= k < |vs| ==> MaxCoord(vs, axis, init) >= vs[k].At(axis)
    ensures MaxCoord(vs, axis, init) == init || exists k :: 0 <= k < |vs| && MaxCoord(vs, axis, init) == vs[k].At(axis)
  {
    if |vs| > 0 {
      var init' := vs[..|vs| - 1];
      MaxCoordIsMaximum(init', axis, init);
      assert forall k :: 0 <= k < |init'| ==> init'[k] == vs[k];
    }
  }

  /**
    For a nonempty mesh of finite coordinates, the corners are attained: some
    vertex has the smallest x, some the largest x, and likewise on y and z.
   */
  lemma {:induction false} CornersAreAttained(vs: seq<Vec3>, axis: nat)
    requires axis < DIMS_3D && |vs| > 0 && Finite(vs)
    ensures forall k :: 0 <= k < |vs| ==> MinCoord(vs, axis, DBL_MAX) <= vs[k].At(axis) <= MaxCoord(vs, axis, LOWEST)
    ensures exists k :: 0 <= k < |vs| && MinCoord(vs, axis, DBL_MAX) == vs[k].At(axis)
    ensures exists k :: 0 <= k < |vs| && MaxCoord(vs, axis, LOWEST) == vs[k].At(axis)
  {
    MinCoordIsMinimum(vs, axis, DBL_MAX);
    MaxCoordIsMaximum(vs, axis, LOWEST);
    assert -DBL_MAX <= vs[0].At(axis) <= DBL_MAX;
    if MinCoord(vs, axis, DBL_MAX) == DBL_MAX {
      assert MinCoord(vs, axis, DBL_MAX) == vs[0].At(axis);
    }
    if MaxCoord(vs, axis, LOWEST) == LOWEST {
      assert MaxCoord(vs, axis, LOWEST) == vs[0].At(axis);
    }
  }

  /**
    With positive offsets, `Fit1x1` puts a nonempty, finite mesh into the box
    [0, xOffset] x [0, ...) x [0, zOffset].
   */
  lemma {:induction false} FitStaysInBox(vs: seq<Vec3>, xOffset: real, zOffset: real)
    requires Finite(vs)
    requires XScale(vs) != 0.0 && ZScale(vs) != 0.0
    requires xOffset > 0.0 && zOffset > 0.0
    ensures var r := Fitted(vs, xOffset, zOffset);
      forall k :: 0 <= k < |r| ==> 0.0 <= r[k].x <= xOffset && 0.0 <= r[k].y && 0.0 <= r[k].z <= zOffset
  {
    var r := Fitted(vs, xOffset, zOffset);
    if |vs| > 0 {
      CornersAreAttained(vs, 0);
      CornersAreAttained(vs, 1);
      CornersAreAttained(vs, 2);
      var bl, tr := BottomLeft(vs), TopRight(vs);
      var xs, zs := XScale(vs), ZScale(vs);
      assert xs >= 0.0 && zs >= 0.0 by {
        assert bl.x <= vs[0].x <= tr.x && bl.z <= vs[0].z <= tr.z;
      }
      forall k | 0 <= k < |r|
        ensures 0.0 <= r[k].x <= xOffset && 0.0 <= r[k].y && 0.0 <= r[k].z <= zOffset
      {
        assert bl.x <= vs[k].x <= tr.x && bl.y <= vs[k].y && bl.z <= vs[k].z <= tr.z;
        FitVertexInBox(vs[k], bl, tr, xs, zs, xOffset, zOffset);
      }
    }
  }

  lemma FitVertexInBox(v: Vec3, bl: Vec3, tr: Vec3, xScale: real, zScale: real, xOffset: real, zOffset: real)
    requires bl.x <= v.x <= tr.x && bl.y <= v.y && bl.z <= v.z <= tr.z
    requires xScale == tr.x - bl.x && zScale == tr.z - bl.z && xScale > 0.0 && zScale > 0.0
    requires xOffset > 0.0 && zOffset > 0.0
    ensures var f := FitVertex(v, bl, xScale, zScale, xOffset, zOffset);
            0.0 <= f.x <= xOffset && 0.0 <= f.y && 0.0 <= f.z <= zOffset
  {
    UnitFraction(v.x - bl.x, xScale, xOffset);
    UnitFraction(v.z - bl.z, zScale, zOffset);
    NonNegativeFraction(v.y - bl.y, xScale, xOffset);
  }

  /**
    The box is filled: the smallest x, y and z of the mesh become 0, its
    largest x becomes `xOffset` and its largest z becomes `zOffset`.
   */
  lemma {:induction false} FitSpansOffsets(vs: seq<Vec3>, xOffset: real, zOffset: real)
    requires |vs| > 0 && Finite(vs)
    requires XScale(vs) != 0.0 && ZScale(vs) != 0.0
    ensures var r := Fitted(vs, xOffset, zOffset);
      && (exists k :: 0 <= k < |r| && r[k].x == 0.0)
      && (exists k :: 0 <= k < |r| && r[k].y == 0.0)
      && (exists k :: 0 <= k < |r| && r[k].z == 0.0)
      && (exists k :: 0 <= k < |r| && r[k].x == xOffset)
      && (exists k :: 0 <= k < |r| && r[k].z == zOffset)
  {
    var r := Fitted(vs, xOffset, zOffset);
    var bl, xs, zs := BottomLeft(vs), XScale(vs), ZScale(vs);
    CornersAreAttained(vs, 0);
    CornersAreAttained(vs, 1);
    CornersAreAttained(vs, 2);
    var kx0 :| 0 <= kx0 < |vs| && MinCoord(vs, 0, DBL_MAX) == vs[kx0].At(0);
    var ky0 :| 0 <= ky0 < |vs| && MinCoord(vs, 1, DBL_MAX) == vs[ky0].At(1);
    var kz0 :| 0 <= kz0 < |vs| && MinCoord(vs, 2, DBL_MAX) == vs[kz0].At(2);
    var kx1 :| 0 <= kx1 < |vs| && MaxCoord(vs, 0, LOWEST) == vs[kx1].At(0);
    var kz1 :| 0 <= kz1 < |vs| && MaxCoord(vs, 2, LOWEST) == vs[kz1].At(2);
    FitVertexExtremes(vs[kx0], bl, xs, zs, xOffset, zOffset);
    FitVertexExtremes(vs[ky0], bl, xs, zs, xOffset, zOffset);
    FitVertexExtremes(vs[kz0], bl, xs, zs, xOffset, zOffset);
    FitVertexExtremes(vs[kx1], bl, xs, zs, xOffset, zOffset);
    FitVertexExtremes(vs[kz1], bl, xs, zs, xOffset, zOffset);
    assert r[kx0].x == 0.0 && r[ky0].y == 0.0 && r[kz0].z == 0.0;
    assert r[kx1].x == xOffset && r[kz1].z == zOffset;
  }

  /** A vertex on the minimum corner's plane lands on 0; one at the far extent lands on the offset. */
  lemma FitVertexExtremes(v: Vec3, bl: Vec3, xScale: real, zScale: real, xOffset: real, zOffset: real)
    requires xScale != 0.0 && zScale != 0.0
    ensures var f := FitVertex(v, bl, xScale, zScale, xOffset, zOffset);
      && (v.x == bl.x ==> f.x == 0.0) && (v.y == bl.y ==> f.y == 0.0) && (v.z == bl.z ==> f.z == 0.0)
      && (v.x == bl.x + xScale ==> f.x == xOffset) && (v.z == bl.z + zScale ==> f.z == zOffset)
  {
    DivSelf(xScale);
    DivSelf(zScale);
  }

  lemma UnitFraction(d: real, scale: real, offset: real)
    requires 0.0 <= d <= scale && scale > 0.0 && offset > 0.0
    ensures 0.0 <= d / scale * offset <= offset
  {
    assert 0.0 <= d / scale <= 1.0;
  }

  lemma NonNegativeFraction(d: real, scale: real, offset: real)
    requires 0.0 <= d && scale > 0.0 && offset > 0.0
    ensures 0.0 <= d / scale * offset
  {
  }

  // ---------------------------------------------------------------------
  // Fit1x1 as written: the x and z maxima start from DBL_MIN
  // ---------------------------------------------------------------------

  /**
    `topRightCorner` as the source initialises it: `numeric_limits<double>::min()`
    is the smallest positive double, not the most negative one, so on meshes
    lying entirely at negative x (or z) the maximum stays `DBL_MIN`.
   */
  function TopRightAsWritten(vs: seq<Vec3>): Vec3
  {
    Vec3(MaxCoord(vs, 0, DBL_MIN), MinCoord(vs, 1, DBL_MAX), MaxCoord(vs, 2, DBL_MIN))
  }

  /** The vertex list the source's `Fit1x1` leaves behind. */
  function FittedAsWritten(vs: seq<Vec3>, xOffset: real, zOffset: real): (r: seq<Vec3>)
    requires TopRightAsWritten(vs).x != BottomLeft(vs).x && TopRightAsWritten(vs).z != BottomLeft(vs).z
    ensures |r| == |vs|
  {
    var bl, tr := BottomLeft(vs), TopRightAsWritten(vs);
    seq(|vs|, k requires 0 <= k < |vs| => FitVertex(vs[k], bl, tr.x - bl.x, tr.z - bl.z, xOffset, zOffset))
  }

  /**
    A mesh at negative x and z, spanning one unit on each: as written, no
    vertex reaches x = 1 after fitting to a 1 x 1 square, because the measured
    x extent is 2 + DBL_MIN instead of 1. The corrected fit does reach it.
   */
  lemma Fit1x1AsWrittenMisses()
    ensures var vs := [Vec3(-2.0, 0.0, -2.0), Vec3(-1.0, 0.0, -1.0)];
      && TopRightAsWritten(vs).x == DBL_MIN
      && (forall k :: 0 <= k < |vs| ==> FittedAsWritten(vs, 1.0, 1.0)[k].x < 1.0)
      && Fitted(vs, 1.0, 1.0)[1].x == 1.0
  {
    var a, b := Vec3(-2.0, 0.0, -2.0), Vec3(-1.0, 0.0, -1.0);
    var vs := [a, b];
    CoordsOfPair(a, b, 0, DBL_MAX, DBL_MIN);
    CoordsOfPair(a, b, 1, DBL_MAX, DBL_MIN);
    CoordsOfPair(a, b, 2, DBL_MAX, DBL_MIN);
    CoordsOfPair(a, b, 0, DBL_MAX, LOWEST);
    CoordsOfPair(a, b, 2, DBL_MAX, LOWEST);
    assert BottomLeft(vs) == a;
    assert TopRightAsWritten(vs).x == DBL_MIN && TopRightAsWritten(vs).z == DBL_MIN;
    assert TopRight(vs).x == -1.0 && TopRight(vs).z == -1.0;
    var r := FittedAsWritten(vs, 1.0, 1.0);
    var s := DBL_MIN + 2.0;
    assert r[0].x == 0.0 / s * 1.0;
    assert r[1].x == 1.0 / s * 1.0;
    assert 1.0 / s < 1.0;
    assert Fitted(vs, 1.0, 1.0)[1].x == 1.0 / 1.0 * 1.0;
  }

  /** The running minimum and maximum over two vertices. */
  lemma CoordsOfPair(a: Vec3, b: Vec3, axis: nat, minInit: real, maxInit: real)
    requires axis < DIMS_3D
    ensures MinCoord([a, b], axis, minInit) == Min(Min(minInit, a.At(axis)), b.At(axis))
    ensures MaxCoord([a, b], axis, maxInit) == Max(Max(maxInit, a.At(axis)), b.At(axis))
  {
    assert [a, b][..1] == [a];
    assert [a][..0] == [];
    assert MinCoord([a], axis, minInit) == Min(minInit, a.At(axis));
    assert MaxCoord([a], axis, maxInit) == Max(maxInit, a.At(axis));
  }

  // ---------------------------------------------------------------------
  // Dynamic type and the light
  // ---------------------------------------------------------------------

  /** A `shared_ptr<Object>` together with the dynamic type of what it points to. */
  datatype SceneObject = Base(obj: Object) | Tri(tri: Triangle) | Mesh(mesh: TriangleMesh)

  /** The object a `SceneObject` points to. */
  function Target(o: SceneObject): (r: object)
    ensures o.Base? ==> r == o.obj
    ensures o.Tri? ==> r == o.tri
    ensures o.Mesh? ==> r == o.mesh
  {
    match o
    case Base(b) => b
    case Tri(t) => t
    case Mesh(m) => m
  }

  /** `GetType`, as overridden by each class. */
  function GetType(o: SceneObject): (t: ObjectType)
    ensures t == BASE <==> o.Base?
    ensures t == TRIANGLE <==> o.Tri?
    ensures t == TRIANGLE_MESH <==> o.Mesh?
  {
    match o
    case Base(_) => BASE
    case Tri(_) => TRIANGLE
    case Mesh(_) => TRIANGLE_MESH
  }

  /** `GetColor` */
  function GetColor(o: SceneObject): Vec3
    reads Target(o)
  {
    match o
    case Base(b) => b.color
    case Tri(t) => t.color
    case Mesh(m) => m.color
  }

  /** `GetAlbedo` */
  function GetAlbedo(o: SceneObject): real
    reads Target(o)
  {
    match o
    case Base(b) => b.albedo
    case Tri(t) => t.albedo
    case Mesh(m) => m.albedo
  }

  /** `DistantLightSource`: a colour, a direction and an intensity. */
  class DistantLightSource {
    var color: Vec3
    var direction: Vec3
    var intensity: real

    /** `DistantLightSource()`: the `Utils` light defaults, the direction normalized. */
    constructor ()
      ensures color == LIGHT_COLOR && direction == Normalize(LIGHT_DIR) && intensity == LIGHT_INTENSITY
    {
      color := LIGHT_COLOR;
      direction := Normalize(LIGHT_DIR);
      intensity := LIGHT_INTENSITY;
    }

    method SetColor(color': Vec3)
      modifies this`color
      ensures color == color'
    {
      color := color';
    }

    method SetDirection(direction': Vec3)
      modifies this`direction
      ensures direction == direction'
    {
      direction := direction';
    }

    method SetIntensity(intensity': real)
      modifies this`intensity
      ensures intensity == intensity'
    {
      intensity := intensity';
    }
  }
}
