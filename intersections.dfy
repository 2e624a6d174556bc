/**
  The object-level intersection tests of scripts/RayTrace/Ray.cpp:
  `RayTriangleMeshIntersect`, the closest-face loop over a mesh, and
  `RayIntersect`, the dispatch on the dynamic type of the object.

  The mesh test follows the flat-shading branch: every face is tested with its
  cached face normal passed for all three corners.
 */
module Intersections {
  import opened Exceptions
  import opened Vectors
  import opened Utils
  import opened Rays
  import opened Objects

  /**
    The payload of face `k`: the triangle test on its corners, cached edges and
    cached normal. A hit carries the face's cached normal, lies in front of the
    ray, and its point start + dist * direction is the point of the face's plane
    at barycentric (u, v) from the first corner along the cached edges.
   */
  function FacePayload(ray: Ray, vs: seq<Vec3>, ts: seq<Face>, edges: seq<(Vec3, Vec3)>,
                       normals: seq<Vec3>, k: nat): (r: HitPayload)
    requires FacesIn(ts, |vs|) && |edges| == |ts| && |normals| == |ts| && k < |ts|
    ensures IsHit(r) ==> r.hitNormal == normals[k] && 0.0 <= r.hitDist
    ensures IsHit(r) ==> Add(ray.start, Scale(ray.direction, r.hitDist))
                         == Add(vs[ts[k].a], Add(Scale(edges[k].0, r.u), Scale(edges[k].1, r.v)))
  {
    var t := ts[k];
    var r := RayTriangleIntersect(ray, vs[t.a], vs[t.b], vs[t.c], edges[k].0, edges[k].1,
                                  normals[k], normals[k], normals[k]);
    if IsHit(r) then
      FlatHitNormal(ray, vs[t.a], vs[t.b], vs[t.c], edges[k].0, edges[k].1, normals[k]);
      HitLiesOnTriangle(ray, vs[t.a], edges[k].0, edges[k].1);
      r
    else
      r
  }

  /** The payloads of all faces, in face order. */
  function FacePayloads(ray: Ray, vs: seq<Vec3>, ts: seq<Face>, edges: seq<(Vec3, Vec3)>,
                        normals: seq<Vec3>): (r: seq<HitPayload>)
    requires FacesIn(ts, |vs|) && |edges| == |ts| && |normals| == |ts|
    ensures |r| == |ts|
    ensures forall k :: 0 <= k < |ts| ==> r[k] == FacePayload(ray, vs, ts, edges, normals, k)
  {
    seq(|ts|, k requires 0 <= k < |ts| => FacePayload(ray, vs, ts, edges, normals, k))
  }

  /** The payloads of the faces of a mesh. */
  function MeshPayloads(ray: Ray, mesh: TriangleMesh): (r: seq<HitPayload>)
    reads mesh
    requires mesh.CachesSized()
    ensures |r| == |mesh.triangles|
  {
    FacePayloads(ray, mesh.vertices, mesh.triangles, mesh.edges, mesh.normals)
  }

  /**
    `RayTriangleMeshIntersect`: walks the faces in order and keeps a face's
    payload when it is strictly nearer than the one kept so far, starting from
    the default payload at `DBL_MAX`.
   */
  method RayTriangleMeshIntersect(ray: Ray, mesh: TriangleMesh) returns (closestPayload: HitPayload)
    requires mesh.CachesSized()
    ensures closestPayload == ClosestHit(MeshPayloads(ray, mesh))
  {
    closestPayload := NoHit;
    ghost var payloads := MeshPayloads(ray, mesh);
    var i := 0;
    while i < |mesh.triangles|
      invariant 0 <= i <= |mesh.triangles|
      invariant closestPayload == ClosestHit(payloads[..i])
    {
      var triangle := mesh.triangles[i];
      var normal := mesh.normals[i];
      var payload := RayTriangleIntersect(ray, mesh.vertices[triangle.a], mesh.vertices[triangle.b],
                                          mesh.vertices[triangle.c], mesh.edges[i].0, mesh.edges[i].1,
                                          normal, normal, normal);
      assert payloads[..i + 1][..i] == payloads[..i];
      if payload.hitDist < closestPayload.hitDist {
        closestPayload := payload;
      }
      i := i + 1;
    }
    assert payloads[..i] == payloads;
  }

  /**
    What the mesh test returns, described by its faces: the default payload
    exactly when no face is hit; otherwise the payload of one face that is
    hit, at a distance no face beats, carrying that face's own normal, which
    is normalize(AB x AC) of its corners.
   */
  lemma {:induction false} MeshHitIsNearestFace(ray: Ray, mesh: TriangleMesh)
    requires mesh.Valid()
    requires forall k :: 0 <= k < |mesh.triangles| ==> MeshPayloads(ray, mesh)[k].hitDist <= DBL_MAX
    ensures var ps := MeshPayloads(ray, mesh);
            var r := ClosestHit(ps);
      && (!IsHit(r) <==> forall k :: 0 <= k < |ps| ==> !IsHit(ps[k]))
      && (!IsHit(r) ==> r == NoHit)
      && (IsHit(r) ==> exists k :: 0 <= k < |ps| && r == ps[k] &&
                         r.hitNormal == FaceNormal(mesh.vertices, mesh.triangles[k]) &&
                         forall j :: 0 <= j < |ps| ==> r.hitDist <= ps[j].hitDist)
  {
    var ps := MeshPayloads(ray, mesh);
    var r := ClosestHit(ps);
    ClosestHitMissesIffNoHit(ps);
    if IsHit(r) {
      assert r != NoHit;
      var k :| 0 <= k < |ps| && r == ps[k];
      var t := mesh.triangles[k];
      FlatHitNormal(ray, mesh.vertices[t.a], mesh.vertices[t.b], mesh.vertices[t.c],
                    mesh.edges[k].0, mesh.edges[k].1, mesh.normals[k]);
    }
  }

  /**
    What an object holds that the tests and the shading read, as a value:
    the corners, cached edges and normal of a triangle, the vertices, faces
    and caches of a mesh, and the colour and albedo of every object.
   */
  datatype Shape =
    | BaseShape(color: Vec3, albedo: real)
    | TriShape(pointA: Vec3, pointB: Vec3, pointC: Vec3, edgeAB: Vec3, edgeAC: Vec3, normal: Vec3,
               color: Vec3, albedo: real)
    | MeshShape(vertices: seq<Vec3>, triangles: seq<Face>, edges: seq<(Vec3, Vec3)>, normals: seq<Vec3>,
                color: Vec3, albedo: real)

  /** The caches of a mesh shape have one entry per face and every face indexes a vertex. */
  predicate Ready(s: Shape)
  {
    s.MeshShape? ==> FacesIn(s.triangles, |s.vertices|) && |s.edges| == |s.triangles| && |s.normals| == |s.triangles|
  }

  /** The shape an object currently has: same kind, same fields, ready when its caches are consistent. */
  function ShapeOf(o: SceneObject): (s: Shape)
    reads Target(o)
    ensures s.BaseShape? <==> o.Base?
    ensures s.color == GetColor(o) && s.albedo == GetAlbedo(o)
    ensures o.Mesh? ==> (Ready(s) <==> o.mesh.CachesSized())
  {
    match o
    case Base(b) => BaseShape(b.color, b.albedo)
    case Tri(t) => TriShape(t.pointA, t.pointB, t.pointC, t.edgeAB, t.edgeAC, t.normal, t.color, t.albedo)
    case Mesh(m) => MeshShape(m.vertices, m.triangles, m.edges, m.normals, m.color, m.albedo)
  }

  /**
    What an object test returns: the triangle test with the face normal for
    all three corners, the nearest face of a mesh, or the error for any other
    type.
   */
  function Intersect(ray: Ray, s: Shape): (r: Result<HitPayload>)
    requires Ready(s)
    ensures r.Throw? <==> s.BaseShape?
    ensures s.TriShape? && IsHit(r.value) ==> r.value.hitNormal == s.normal
  {
    match s
    case TriShape(a, b, c, eAB, eAC, n, _, _) =>
      FlatHitNormal(ray, a, b, c, eAB, eAC, n);
      Ok(RayTriangleIntersect(ray, a, b, c, eAB, eAC, n, n, n))
    case MeshShape(vs, ts, edges, normals, _, _) => Ok(ClosestHit(FacePayloads(ray, vs, ts, edges, normals)))
    case BaseShape(_, _) => Throw(InvalidArgument("Base type object cannot be intersected"))
  }

  /**
    `RayIntersect`: a triangle goes through the triangle test, a mesh through
    the closest-face loop, and any other object type raises
    `invalid_argument`; the result is the test of the object's current shape.
   */
  method RayIntersect(ray: Ray, o: SceneObject) returns (r: Result<HitPayload>)
    requires Ready(ShapeOf(o))
    ensures r == Intersect(ray, ShapeOf(o))
    ensures r.Throw? <==> GetType(o) != TRIANGLE && GetType(o) != TRIANGLE_MESH
  {
    var objType := GetType(o);
    if objType == TRIANGLE {
      var t := o.tri;
      var triangleNormal := t.normal;
      r := Ok(RayTriangleIntersect(ray, t.pointA, t.pointB, t.pointC, t.edgeAB, t.edgeAC,
                                   triangleNormal, triangleNormal, triangleNormal));
    } else if objType == TRIANGLE_MESH {
      var payload := RayTriangleMeshIntersect(ray, o.mesh);
      r := Ok(payload);
    } else {
      r := Throw(InvalidArgument("Base type object cannot be intersected"));
    }
  }
}
