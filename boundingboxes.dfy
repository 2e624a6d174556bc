/**
  The acceleration box of scripts/RayTrace/BoundingBox.cpp: a triangle is its
  own box; any other object is wrapped in the 12 triangles of the axis-aligned
  box spanned by its bounding points, all sharing one diffuse material.
 */
module BoundingBoxes {
  import opened Exceptions
  import opened Vectors
  import opened Utils
  import opened Materials
  import opened Objects

  /**
    Corner `i` of the box spanned by `minPoint` and `maxPoint`: v0 is the
    minimum, v1 .. v3 go round the bottom (z = min) face, v4 .. v7 round the
    top (z = max) face in the same order.
   */
  function Corner(minPoint: Vec3, maxPoint: Vec3, i: nat): Vec3
    requires i < 8
  {
    var lo, hi := minPoint, maxPoint;
    [Vec3(lo.x, lo.y, lo.z), Vec3(hi.x, lo.y, lo.z), Vec3(hi.x, hi.y, lo.z), Vec3(lo.x, hi.y, lo.z),
     Vec3(lo.x, lo.y, hi.z), Vec3(hi.x, lo.y, hi.z), Vec3(hi.x, hi.y, hi.z), Vec3(lo.x, hi.y, hi.z)][i]
  }

  /** The corner indices of the 12 box triangles, in the order the constructor appends them. */
  const BOX_FACES: seq<(nat, nat, nat)> :=
    [(1, 6, 5), (1, 2, 6), (0, 2, 1), (0, 3, 2), (4, 5, 6), (4, 6, 7),
     (0, 7, 3), (0, 3, 7), (3, 6, 2), (3, 7, 6), (0, 5, 4), (0, 1, 5)]

  /** Whether corner `i` takes the maximum on `axis` (0 = x, 1 = y, 2 = z). */
  function CornerAtMax(i: nat, axis: nat): bool
    requires i < 8 && axis < DIMS_3D
  {
    if axis == 0 then i in {1, 2, 5, 6} else if axis == 1 then i in {2, 3, 6, 7} else i >= 4
  }

  /** The corners of the 12 box triangles. */
  function BoxTriangles(minPoint: Vec3, maxPoint: Vec3): (r: seq<(Vec3, Vec3, Vec3)>)
    ensures |r| == |BOX_FACES| == 12
  {
    seq(12, k requires 0 <= k < 12 =>
      (Corner(minPoint, maxPoint, BOX_FACES[k].0), Corner(minPoint, maxPoint, BOX_FACES[k].1),
       Corner(minPoint, maxPoint, BOX_FACES[k].2)))
  }

  /** Every coordinate of corner `i` is the minimum's or the maximum's, as `CornerAtMax` says. */
  lemma CornerCoordinates(minPoint: Vec3, maxPoint: Vec3, i: nat)
    requires i < 8
    ensures forall axis :: 0 <= axis < DIMS_3D ==>
      Corner(minPoint, maxPoint, i).At(axis) ==
        (if CornerAtMax(i, axis) then maxPoint.At(axis) else minPoint.At(axis))
  {
  }

  /**
    Every vertex of every box triangle is one of the 8 corners: each of its
    coordinates is taken from the minimum or the maximum point.
   */
  lemma BoxVerticesAreCorners(minPoint: Vec3, maxPoint: Vec3)
    ensures forall k, axis :: 0 <= k < 12 && 0 <= axis < DIMS_3D ==>
      var (a, b, c) := BoxTriangles(minPoint, maxPoint)[k];
      && (a.At(axis) == minPoint.At(axis) || a.At(axis) == maxPoint.At(axis))
      && (b.At(axis) == minPoint.At(axis) || b.At(axis) == maxPoint.At(axis))
      && (c.At(axis) == minPoint.At(axis) || c.At(axis) == maxPoint.At(axis))
  {
    forall k, axis | 0 <= k < 12 && 0 <= axis < DIMS_3D
      ensures var (a, b, c) := BoxTriangles(minPoint, maxPoint)[k];
        && (a.At(axis) == minPoint.At(axis) || a.At(axis) == maxPoint.At(axis))
        && (b.At(axis) == minPoint.At(axis) || b.At(axis) == maxPoint.At(axis))
        && (c.At(axis) == minPoint.At(axis) || c.At(axis) == maxPoint.At(axis))
    {
      CornerCoordinates(minPoint, maxPoint, BOX_FACES[k].0);
      CornerCoordinates(minPoint, maxPoint, BOX_FACES[k].1);
      CornerCoordinates(minPoint, maxPoint, BOX_FACES[k].2);
    }
  }

  /** The face plane of each box triangle: an axis and whether it is the maximum side. */
  const BOX_FACE_PLANES: seq<(nat, bool)> :=
    [(0, true), (0, true), (2, false), (2, false), (2, true), (2, true),
     (0, false), (0, false), (1, true), (1, true), (1, false), (1, false)]

  /**
    Each box triangle lies in one face plane of the box: its three vertices
    share the minimum or the maximum value on the axis `BOX_FACE_PLANES` names.
   */
  lemma BoxTrianglesInFacePlanes(minPoint: Vec3, maxPoint: Vec3)
    ensures forall k :: 0 <= k < 12 ==>
      var (a, b, c) := BoxTriangles(minPoint, maxPoint)[k];
      var (axis, atMax) := BOX_FACE_PLANES[k];
      var bound := if atMax then maxPoint.At(axis) else minPoint.At(axis);
      axis < DIMS_3D && a.At(axis) == bound && b.At(axis) == bound && c.At(axis) == bound
  {
    // the table facts: each face triangle's corners agree on its plane's axis
    assert forall k :: 0 <= k < 12 ==>
      var (axis, atMax) := BOX_FACE_PLANES[k];
      axis < DIMS_3D && BOX_FACES[k].0 < 8 && BOX_FACES[k].1 < 8 && BOX_FACES[k].2 < 8 &&
      CornerAtMax(BOX_FACES[k].0, axis) == atMax && CornerAtMax(BOX_FACES[k].1, axis) == atMax &&
      CornerAtMax(BOX_FACES[k].2, axis) == atMax;
    forall k | 0 <= k < 12
      ensures var (a, b, c) := BoxTriangles(minPoint, maxPoint)[k];
        var (axis, atMax) := BOX_FACE_PLANES[k];
        var bound := if atMax then maxPoint.At(axis) else minPoint.At(axis);
        axis < DIMS_3D && a.At(axis) == bound && b.At(axis) == bound && c.At(axis) == bound
    {
      CornerCoordinates(minPoint, maxPoint, BOX_FACES[k].0);
      CornerCoordinates(minPoint, maxPoint, BOX_FACES[k].1);
      CornerCoordinates(minPoint, maxPoint, BOX_FACES[k].2);
    }
  }

  /** The corner indices of a face triangle, as a set. */
  function FaceCorners(k: nat): set<nat>
    requires k < 12
  {
    {BOX_FACES[k].0, BOX_FACES[k].1, BOX_FACES[k].2}
  }

  /**
    Five faces are covered by two triangles over all four of their corners;
    the minimum-x face is covered by (v0, v7, v3) and (v0, v3, v7), the same
    three corners with opposite winding, so its corner v4 is in neither and
    half of that face is open.
   */
  lemma MinXFaceHalfCovered()
    ensures forall k :: 0 <= k < 12 && BOX_FACE_PLANES[k] == (0, false) ==> k == 6 || k == 7
    ensures FaceCorners(6) == FaceCorners(7) == {0, 3, 7}
    ensures BOX_FACES[6] == (BOX_FACES[7].0, BOX_FACES[7].2, BOX_FACES[7].1)
    ensures 4 !in FaceCorners(6) + FaceCorners(7)
    ensures FaceCorners(0) + FaceCorners(1) == {1, 2, 5, 6}
    ensures FaceCorners(2) + FaceCorners(3) == {0, 1, 2, 3}
    ensures FaceCorners(4) + FaceCorners(5) == {4, 5, 6, 7}
    ensures FaceCorners(8) + FaceCorners(9) == {2, 3, 6, 7}
    ensures FaceCorners(10) + FaceCorners(11) == {0, 1, 4, 5}
  {
  }

  /** The box material: one `Lambertian(BASE_ALBEDO)` shared by all box triangles. */
  const BOX_MATERIAL: Material := Lambertian(BASE_ALBEDO)

  /** `BoundingBox`: the wrapped object and the objects the ray is tested against first. */
  class BoundingBox {
    var insideObjects: seq<SceneObject>
    var boxObjects: seq<SceneObject>

    /**
      `BoundingBox(pObject)`. The bounding points, which come from
      `GetBoundingPoints` (whose body is not part of this model), are a
      parameter. The inside list is exactly [pObject]; a triangle is its own
      box; anything else gets 12 new triangles over the box corners, in
      `BoxTriangles` order, each with the shared box material.
     */
    constructor (pObject: SceneObject, boundingPoints: (Vec3, Vec3))
      ensures Shaped()
      ensures insideObjects == [pObject]
      ensures GetType(pObject) == TRIANGLE ==> boxObjects == [pObject]
      ensures GetType(pObject) != TRIANGLE ==>
        && |boxObjects| == 12
        && forall k :: 0 <= k < 12 ==>
             && boxObjects[k].Tri?
             && fresh(boxObjects[k].tri)
             && boxObjects[k].tri.Valid()
             && (boxObjects[k].tri.pointA, boxObjects[k].tri.pointB, boxObjects[k].tri.pointC) ==
                BoxTriangles(boundingPoints.0, boundingPoints.1)[k]
             && boxObjects[k].tri.material == Some(BOX_MATERIAL)
    {
      hide Triangle.Valid;
      insideObjects := [pObject];
      if GetType(pObject) == TRIANGLE {
        boxObjects := [pObject];
      } else {
        var boxes := NewBoxTriangles(boundingPoints.0, boundingPoints.1);
        ghost var corners := BoxTriangles(boundingPoints.0, boundingPoints.1);
        var baseMaterial := Lambertian(BASE_ALBEDO);
        for k := 0 to 12
          invariant forall j :: 0 <= j < 12 ==>
            boxes[j].Tri? && fresh(boxes[j].tri) && boxes[j].tri.Valid() &&
            (boxes[j].tri.pointA, boxes[j].tri.pointB, boxes[j].tri.pointC) == corners[j]
          invariant forall j :: 0 <= j < k ==> boxes[j].tri.material == Some(BOX_MATERIAL)
        {
          boxes[k].tri.SetMaterial(baseMaterial);
        }
        boxObjects := boxes;
      }
    }

    /**
      The 12 `make_shared<Triangle>` calls of the constructor, in order: box
      triangle k joins corners `BOX_FACES[k]`.
     */
    static method NewBoxTriangles(minPoint: Vec3, maxPoint: Vec3) returns (boxes: seq<SceneObject>)
      ensures |boxes| == 12
      ensures forall k :: 0 <= k < 12 ==>
        && boxes[k].Tri? && fresh(boxes[k].tri) && boxes[k].tri.Valid() && boxes[k].tri.material == None
        && (boxes[k].tri.pointA, boxes[k].tri.pointB, boxes[k].tri.pointC) == BoxTriangles(minPoint, maxPoint)[k]
    {
      // The triangles' cached edges and normals are carried along, not inspected.
      hide Triangle.Valid;
      boxes := [];
      for k := 0 to 12
        invariant |boxes| == k
        invariant forall j :: 0 <= j < k ==>
          && boxes[j].Tri? && fresh(boxes[j].tri) && boxes[j].tri.Valid() && boxes[j].tri.material == None
          && (boxes[j].tri.pointA, boxes[j].tri.pointB, boxes[j].tri.pointC) == BoxTriangles(minPoint, maxPoint)[j]
      {
        var (a, b, c) := BOX_FACES[k];
        var t := new Triangle(Corner(minPoint, maxPoint, a), Corner(minPoint, maxPoint, b),
                              Corner(minPoint, maxPoint, c));
        boxes := boxes + [Tri(t)];
      }
    }

    /**
      The shape the constructor leaves: exactly one wrapped object, which is its
      own box when it is a triangle and is otherwise boxed by 12 triangles.
     */
    predicate Shaped()
      reads this
    {
      && |insideObjects| == 1
      && if insideObjects[0].Tri? then boxObjects == insideObjects
         else |boxObjects| == 12 && forall k :: 0 <= k < 12 ==> boxObjects[k].Tri?
    }

    /**
      `GetBoundingBox`: the box list. It holds triangles only, and it is a single
      object exactly when the wrapped object is a triangle.
     */
    function GetBoundingBox(): (r: seq<SceneObject>)
      reads this
      ensures Shaped() ==> forall k :: 0 <= k < |r| ==> r[k].Tri?
      ensures Shaped() ==> (|r| == 1 <==> GetObjectList()[0].Tri?)
    {
      boxObjects
    }

    /** `GetObjectList`: the wrapped object, the only entry of its list. */
    function GetObjectList(): (r: seq<SceneObject>)
      reads this
      ensures Shaped() ==> |r| == 1
    {
      insideObjects
    }
  }
}
