/**
  `RT::Ray` and `RT::HitPayload` of scripts/RayTrace/Ray.h and Ray.cpp: ray
  construction, the Moller-Trumbore triangle test, reflection, and the
  closest-hit choice over a list of candidate hits.

  A ray is a value: the in-place `Reflect` of the source returns the new ray.
 */
module Rays {
  import opened Vectors
  import opened Utils

  /** A ray: its start, the point it was aimed through, and its normalized direction. */
  datatype Ray = Ray(start: Vec3, screen: Vec3, direction: Vec3)

  /** `Ray()`: the three vectors default-constructed, i.e. zero. */
  const DefaultRay: Ray := Ray(Zero, Zero, Zero)

  /** `Ray(startPoint, screenPoint)`: the direction points from the start through the screen point. */
  function MakeRay(start: Vec3, screen: Vec3): (r: Ray)
    ensures r.start == start && r.screen == screen
    ensures r.direction == Scale(Sub(screen, start), NormalizeFactor(Sub(screen, start)))
    ensures r.direction == Zero <==> screen == start
  {
    NormalizeIsPositiveScaling(Sub(screen, start));
    Ray(start, screen, Normalize(Sub(screen, start)))
  }

  /**
    `HitPayload`. `u` and `v` are left uninitialised by the source; the model
    starts them at 0. `pObject` is never written by the core and is not modelled.
   */
  datatype HitPayload = HitPayload(u: real, v: real, hitDist: real, hitPoint: Vec3,
                                   hitNormal: Vec3, frontFace: bool)

  /** A default-constructed payload: "no hit", at distance `DBL_MAX`. */
  const NoHit: HitPayload := HitPayload(0.0, 0.0, DBL_MAX, Zero, Zero, false)

  /** The determinant of the Moller-Trumbore system: edgeAB . (direction x edgeAC). */
  function Det(ray: Ray, edgeAB: Vec3, edgeAC: Vec3): real
  {
    Dot(edgeAB, Cross(ray.direction, edgeAC))
  }

  /** The normal interpolated with the barycentric weights (1 - u - v, u, v). */
  function BlendNormal(u: real, v: real, n1: Vec3, n2: Vec3, n3: Vec3): Vec3
  {
    Add(Add(ScaleLeft(1.0 - u - v, n1), ScaleLeft(u, n2)), ScaleLeft(v, n3))
  }

  /**
    The acceptance tests of the Moller-Trumbore test: the determinant is not
    below `PARALLEL_PRECISION`, the barycentric coordinates (u, v) lie in the
    triangle, and the distance t along the ray is not negative. With
    T = start - pointA they solve u edgeAB + v edgeAC - t direction = T
    (`HitLiesOnTriangle`).
   */
  predicate Accepted(ray: Ray, pointA: Vec3, edgeAB: Vec3, edgeAC: Vec3)
  {
    var det := Det(ray, edgeAB, edgeAC);
    PARALLEL_PRECISION <= Abs(det) &&
    var u := BarycentricU(ray, pointA, edgeAB, edgeAC);
    var v := BarycentricV(ray, pointA, edgeAB, edgeAC);
    0.0 <= u <= 1.0 && 0.0 <= v && u + v <= 1.0 &&
    0.0 <= TriangleDistance(ray, pointA, edgeAB, edgeAC)
  }

  /** u = T . (direction x edgeAC) / det, with T = start - pointA. */
  function BarycentricU(ray: Ray, pointA: Vec3, edgeAB: Vec3, edgeAC: Vec3): real
    requires Det(ray, edgeAB, edgeAC) != 0.0
  {
    Dot(Sub(ray.start, pointA), Cross(ray.direction, edgeAC)) * (1.0 / Det(ray, edgeAB, edgeAC))
  }

  /** v = direction . (T x edgeAB) / det. */
  function BarycentricV(ray: Ray, pointA: Vec3, edgeAB: Vec3, edgeAC: Vec3): real
    requires Det(ray, edgeAB, edgeAC) != 0.0
  {
    Dot(ray.direction, Cross(Sub(ray.start, pointA), edgeAB)) * (1.0 / Det(ray, edgeAB, edgeAC))
  }

  /** t = edgeAC . (T x edgeAB) / det. */
  function TriangleDistance(ray: Ray, pointA: Vec3, edgeAB: Vec3, edgeAC: Vec3): real
    requires Det(ray, edgeAB, edgeAC) != 0.0
  {
    Dot(edgeAC, Cross(Sub(ray.start, pointA), edgeAB)) * (1.0 / Det(ray, edgeAB, edgeAC))
  }

  /**
    `RayTriangleIntersect`. A hit is reported by a `hitDist` other than
    `DBL_MAX`. A rejected ray gets `DBL_MAX` and a zero normal; an accepted
    one gets its coordinates, its distance and the blend of the three given
    normals. A nearly parallel ray never hits. On a rejection the coordinates
    computed so far stay in the payload. `pointB` and `pointC` are not read, as
    in the source. An accepted ray at distance exactly `DBL_MAX` looks like a
    miss to every caller, as it does in the source.
   */
  function RayTriangleIntersect(ray: Ray, pointA: Vec3, pointB: Vec3, pointC: Vec3,
                                edgeAB: Vec3, edgeAC: Vec3,
                                hitNormal1: Vec3, hitNormal2: Vec3, hitNormal3: Vec3): (r: HitPayload)
    ensures r.hitPoint == Zero && !r.frontFace
    ensures r.hitDist == DBL_MAX || 0.0 <= r.hitDist
    ensures r.hitDist != DBL_MAX ==>
      && 0.0 <= r.u <= 1.0 && 0.0 <= r.v && r.u + r.v <= 1.0
      && r.hitNormal == BlendNormal(r.u, r.v, hitNormal1, hitNormal2, hitNormal3)
    ensures !Accepted(ray, pointA, edgeAB, edgeAC) ==> r.hitDist == DBL_MAX && r.hitNormal == Zero
    ensures Accepted(ray, pointA, edgeAB, edgeAC) ==>
      && r.u == BarycentricU(ray, pointA, edgeAB, edgeAC)
      && r.v == BarycentricV(ray, pointA, edgeAB, edgeAC)
      && r.hitDist == TriangleDistance(ray, pointA, edgeAB, edgeAC)
      && r.hitNormal == BlendNormal(r.u, r.v, hitNormal1, hitNormal2, hitNormal3)
    ensures Abs(Det(ray, edgeAB, edgeAC)) < PARALLEL_PRECISION ==> r == NoHit
  {
    var det := Det(ray, edgeAB, edgeAC);
    if Abs(det) < PARALLEL_PRECISION then NoHit
    else
      var u := BarycentricU(ray, pointA, edgeAB, edgeAC);
      if u < 0.0 || u > 1.0 then NoHit.(u := u)
      else
        var v := BarycentricV(ray, pointA, edgeAB, edgeAC);
        if v < 0.0 || u + v > 1.0 then NoHit.(u := u, v := v)
        else
          var hitDist := TriangleDistance(ray, pointA, edgeAB, edgeAC);
          if hitDist < 0.0 then NoHit.(u := u, v := v)
          else NoHit.(u := u, v := v, hitDist := hitDist,
                      hitNormal := BlendNormal(u, v, hitNormal1, hitNormal2, hitNormal3))
  }

  /**
    Cramer's rule behind the test: for the system u a + v b - t d = T the
    three triple products recombine to det T, where det = a . (d x b).
   */
  lemma CramerIdentity(a: Vec3, b: Vec3, d: Vec3, t: Vec3)
    ensures var pu, pv, pt := Dot(t, Cross(d, b)), Dot(d, Cross(t, a)), Dot(b, Cross(t, a));
            var det := Dot(a, Cross(d, b));
            && pu * a.x + pv * b.x - pt * d.x == det * t.x
            && pu * a.y + pv * b.y - pt * d.y == det * t.y
            && pu * a.z + pv * b.z - pt * d.z == det * t.z
  {
    CramerX(a, b, d, t);
    CramerY(a, b, d, t);
    CramerZ(a, b, d, t);
  }

  /** The x component of `CramerIdentity`. */
  lemma CramerX(a: Vec3, b: Vec3, d: Vec3, t: Vec3)
    ensures Dot(t, Cross(d, b)) * a.x + Dot(d, Cross(t, a)) * b.x - Dot(b, Cross(t, a)) * d.x
         == Dot(a, Cross(d, b)) * t.x
  {
  }

  /** The y component of `CramerIdentity`. */
  lemma CramerY(a: Vec3, b: Vec3, d: Vec3, t: Vec3)
    ensures Dot(t, Cross(d, b)) * a.y + Dot(d, Cross(t, a)) * b.y - Dot(b, Cross(t, a)) * d.y
         == Dot(a, Cross(d, b)) * t.y
  {
  }

  /** The z component of `CramerIdentity`. */
  lemma CramerZ(a: Vec3, b: Vec3, d: Vec3, t: Vec3)
    ensures Dot(t, Cross(d, b)) * a.z + Dot(d, Cross(t, a)) * b.z - Dot(b, Cross(t, a)) * d.z
         == Dot(a, Cross(d, b)) * t.z
  {
  }

  /** Dividing one component of Cramer's identity by the determinant. */
  lemma DivideByDet(pu: real, pv: real, pt: real, ax: real, bx: real, dx: real, tx: real, det: real)
    requires det != 0.0
    requires pu * ax + pv * bx - pt * dx == det * tx
    ensures (pu * (1.0 / det)) * ax + (pv * (1.0 / det)) * bx - (pt * (1.0 / det)) * dx == tx
  {
    calc {
      (pu * (1.0 / det)) * ax + (pv * (1.0 / det)) * bx - (pt * (1.0 / det)) * dx;
      (pu * ax + pv * bx - pt * dx) * (1.0 / det);
      (det * tx) * (1.0 / det);
      tx;
    }
  }

  /**
    The coordinates the test computes locate the hit: walking t along the ray
    from its start reaches pointA + u edgeAB + v edgeAC, the point of the
    triangle's plane with barycentric coordinates (1 - u - v, u, v).
   */
  lemma {:induction false} HitLiesOnTriangle(ray: Ray, pointA: Vec3, edgeAB: Vec3, edgeAC: Vec3)
    requires Det(ray, edgeAB, edgeAC) != 0.0
    ensures Add(ray.start, Scale(ray.direction, TriangleDistance(ray, pointA, edgeAB, edgeAC)))
         == Add(pointA, Add(Scale(edgeAB, BarycentricU(ray, pointA, edgeAB, edgeAC)),
                            Scale(edgeAC, BarycentricV(ray, pointA, edgeAB, edgeAC))))
  {
    var a, b, d, t := edgeAB, edgeAC, ray.direction, Sub(ray.start, pointA);
    var det := Det(ray, edgeAB, edgeAC);
    var pu, pv, pt := Dot(t, Cross(d, b)), Dot(d, Cross(t, a)), Dot(b, Cross(t, a));
    CramerIdentity(a, b, d, t);
    hide Dot, Cross;
    DivideByDet(pu, pv, pt, a.x, b.x, d.x, t.x, det);
    DivideByDet(pu, pv, pt, a.y, b.y, d.y, t.y, det);
    DivideByDet(pu, pv, pt, a.z, b.z, d.z, t.z, det);
  }

  /** True when the payload records a hit. */
  predicate IsHit(p: HitPayload)
  {
    p.hitDist != DBL_MAX
  }

  /**
    A ray running parallel to the triangle's plane (orthogonal to its face
    normal edgeAB x edgeAC) has a zero determinant, so it never hits.
   */
  lemma ParallelRayMisses(ray: Ray, pointA: Vec3, pointB: Vec3, pointC: Vec3,
                          edgeAB: Vec3, edgeAC: Vec3, n1: Vec3, n2: Vec3, n3: Vec3)
    requires Dot(ray.direction, Cross(edgeAB, edgeAC)) == 0.0
    ensures Det(ray, edgeAB, edgeAC) == 0.0
    ensures RayTriangleIntersect(ray, pointA, pointB, pointC, edgeAB, edgeAC, n1, n2, n3) == NoHit
  {
    TripleProduct(edgeAB, ray.direction, edgeAC);
    TripleProduct(ray.direction, edgeAB, edgeAC);
  }

  /**
    With one face normal passed for all three corners (the flat-shading case of
    the mesh test and the single-triangle case), a hit carries that normal.
   */
  lemma {:induction false} FlatHitNormal(ray: Ray, pointA: Vec3, pointB: Vec3, pointC: Vec3,
                                         edgeAB: Vec3, edgeAC: Vec3, normal: Vec3)
    ensures var r := RayTriangleIntersect(ray, pointA, pointB, pointC, edgeAB, edgeAC, normal, normal, normal);
            IsHit(r) ==> r.hitNormal == normal
  {
    var r := RayTriangleIntersect(ray, pointA, pointB, pointC, edgeAB, edgeAC, normal, normal, normal);
    if IsHit(r) {
      BlendOfEqualNormals(r.u, r.v, normal);
    }
  }

  /** Barycentric weights sum to one, so blending one normal three times gives it back. */
  lemma BlendOfEqualNormals(u: real, v: real, n: Vec3)
    ensures BlendNormal(u, v, n, n, n) == n
  {
    assert (1.0 - u - v) * n.x + u * n.x + v * n.x == n.x;
    assert (1.0 - u - v) * n.y + u * n.y + v * n.y == n.y;
    assert (1.0 - u - v) * n.z + u * n.z + v * n.z == n.z;
  }

  // ---------------------------------------------------------------------
  // Reflection
  // ---------------------------------------------------------------------

  /** The mirror image of `d` in the plane with normal `n`, before normalizing: d - 2 (n . d) n. */
  function MirrorDirection(d: Vec3, n: Vec3): (r: Vec3)
    ensures IsUnit(n) ==> Dot(n, r) == -Dot(n, d)
    ensures Dot(n, d) == 0.0 ==> r == d
  {
    var k := 2.0 * Dot(n, d);
    DotAddSub(n, d, ScaleLeft(k, n));
    DotScale(n, n, k);
    Sub(d, ScaleLeft(k, n))
  }

  /**
    `GetReflected`: the normalized mirror direction of the ray; against a unit
    normal it leaves the surface exactly when the ray went into it.
   */
  function GetReflected(ray: Ray, reflectNormal: Vec3): (r: Vec3)
    ensures IsUnit(reflectNormal) ==> (Dot(reflectNormal, r) > 0.0 <==> Dot(reflectNormal, ray.direction) < 0.0)
    ensures IsUnit(reflectNormal) ==> (Dot(reflectNormal, r) == 0.0 <==> Dot(reflectNormal, ray.direction) == 0.0)
  {
    Reflected(ray.direction, reflectNormal)
  }

  /**
    The normalized mirror direction of `d` in the plane with normal `n`. Against
    a unit normal its normal component is the incoming one reversed and rescaled
    by a positive factor, so the reflection leaves the surface exactly when `d`
    went into it.
   */
  function Reflected(d: Vec3, n: Vec3): (r: Vec3)
    ensures IsUnit(n) ==> (Dot(n, r) > 0.0 <==> Dot(n, d) < 0.0)
    ensures IsUnit(n) ==> (Dot(n, r) == 0.0 <==> Dot(n, d) == 0.0)
  {
    var m := MirrorDirection(d, n);
    NormalizedReversal(n, m, Dot(n, d));
    Normalize(m)
  }

  /**
    Against a unit normal, the reflected direction's normal component is the
    incoming one reversed and rescaled by the positive normalizing factor.
   */
  lemma ReflectedNormalComponent(d: Vec3, n: Vec3)
    requires IsUnit(n)
    ensures Dot(n, Reflected(d, n)) == NormalizeFactor(MirrorDirection(d, n)) * -Dot(n, d)
  {
    NormalizedReversal(n, MirrorDirection(d, n), Dot(n, d));
  }

  /** Normalizing `m` rescales its component `-a` along `n` by a positive factor, keeping its sign. */
  lemma NormalizedReversal(n: Vec3, m: Vec3, a: real)
    requires IsUnit(n) ==> Dot(n, m) == -a
    ensures IsUnit(n) ==> Dot(n, Normalize(m)) == NormalizeFactor(m) * -a
    ensures IsUnit(n) ==> (Dot(n, Normalize(m)) > 0.0 <==> a < 0.0)
    ensures IsUnit(n) ==> (Dot(n, Normalize(m)) == 0.0 <==> a == 0.0)
  {
    if !IsUnit(n) {
      return;
    }
    DotWithNormalized(n, m, -a);
    hide Dot, Normalize, NormalizeFactor;
    NegProductSign(NormalizeFactor(m), a);
  }

  lemma NegProductSign(k: real, a: real)
    requires k > 0.0
    ensures k * -a > 0.0 <==> a < 0.0
    ensures k * -a == 0.0 <==> a == 0.0
  {
    if a < 0.0 {
      assert k * -a > 0.0;
    } else if a == 0.0 {
      assert k * -a == 0.0;
    } else {
      assert k * -a < 0.0;
    }
  }

  /**
    `Reflect`: the ray is turned into the reflected direction and restarted at
    `rayStart`, its screen point one camera length further along.
   */
  function Reflect(ray: Ray, reflectNormal: Vec3, rayStart: Vec3): (r: Ray)
    ensures r.direction == GetReflected(ray, reflectNormal)
    ensures r.start == rayStart
    ensures Sub(r.screen, r.start) == Scale(r.direction, DEFAULT_CAMERA_LENGTH)
  {
    var direction := Reflected(ray.direction, reflectNormal);
    Ray(rayStart, Add(rayStart, ScaleLeft(DEFAULT_CAMERA_LENGTH, direction)), direction)
  }

  /** A direction against a unit normal is mirrored onto the normal itself. */
  lemma MirrorOfReversedNormal(n: Vec3)
    requires IsUnit(n)
    ensures MirrorDirection(Neg(n), n) == n
  {
    assert Dot(n, Neg(n)) == -Dot(n, n) == -1.0;
    assert ScaleLeft(2.0 * -1.0, n) == Scale(n, -2.0);
  }

  /** Mirroring twice in the same unit normal gives the original direction back. */
  lemma MirrorIsInvolution(d: Vec3, n: Vec3)
    requires IsUnit(n)
    ensures MirrorDirection(MirrorDirection(d, n), n) == d
  {
    var m := MirrorDirection(d, n);
    var k := 2.0 * Dot(n, d);
    assert Dot(n, m) == -Dot(n, d);
    assert MirrorDirection(m, n) == Sub(m, ScaleLeft(-k, n));
    assert Sub(Sub(d, ScaleLeft(k, n)), ScaleLeft(-k, n)) == d;
  }

  // ---------------------------------------------------------------------
  // Choosing the closest hit
  // ---------------------------------------------------------------------

  /**
    The payload kept by the mesh loop of `RayTriangleMeshIntersect` after
    seeing `payloads` in order: a candidate replaces the current one only when
    strictly nearer, starting from the default "no hit" payload.
   */
  function ClosestHit(payloads: seq<HitPayload>): (r: HitPayload)
    ensures r == NoHit || r in payloads
    ensures r.hitDist <= DBL_MAX
    ensures forall k :: 0 <= k < |payloads| ==> r.hitDist <= payloads[k].hitDist
  {
    if |payloads| == 0 then NoHit
    else
      var best := ClosestHit(payloads[..|payloads| - 1]);
      var last := payloads[|payloads| - 1];
      assert forall k :: 0 <= k < |payloads| - 1 ==> payloads[k] == payloads[..|payloads| - 1][k];
      if last.hitDist < best.hitDist then last else best
  }

  /** On equal distances the earliest candidate wins: the first of the nearest is kept. */
  lemma {:induction false} ClosestHitIsFirstNearest(payloads: seq<HitPayload>, k: nat)
    requires k < |payloads|
    requires payloads[k].hitDist < DBL_MAX
    requires forall j :: 0 <= j < |payloads| ==> payloads[k].hitDist <= payloads[j].hitDist
    requires forall j :: 0 <= j < k ==> payloads[k].hitDist < payloads[j].hitDist
    ensures ClosestHit(payloads) == payloads[k]
  {
    var n := |payloads| - 1;
    var init := payloads[..n];
    if k < n {
      ClosestHitIsFirstNearest(init, k);
    } else {
      assert forall j :: 0 <= j < n ==> init[j] == payloads[j];
      ClosestHitAllFarther(init, payloads[k].hitDist);
    }
  }

  /** When every candidate is farther than `d`, the kept payload is too (or is the default). */
  lemma {:induction false} ClosestHitAllFarther(payloads: seq<HitPayload>, d: real)
    requires d < DBL_MAX
    requires forall j :: 0 <= j < |payloads| ==> d < payloads[j].hitDist
    ensures d < ClosestHit(payloads).hitDist
  {
    if |payloads| > 0 {
      var init := payloads[..|payloads| - 1];
      assert forall j :: 0 <= j < |init| ==> init[j] == payloads[j];
      ClosestHitAllFarther(init, d);
    }
  }

  /** Nothing is hit, exactly when no candidate records a hit nearer than `DBL_MAX`. */
  lemma {:induction false} ClosestHitMissesIffNoHit(payloads: seq<HitPayload>)
    requires forall j :: 0 <= j < |payloads| ==> payloads[j].hitDist <= DBL_MAX
    ensures ClosestHit(payloads).hitDist == DBL_MAX <==>
            forall j :: 0 <= j < |payloads| ==> payloads[j].hitDist == DBL_MAX
    ensures (forall j :: 0 <= j < |payloads| ==> payloads[j].hitDist == DBL_MAX) ==> ClosestHit(payloads) == NoHit
  {
    if |payloads| > 0 {
      var init := payloads[..|payloads| - 1];
      assert forall j :: 0 <= j < |init| ==> init[j] == payloads[j];
      ClosestHitMissesIffNoHit(init);
    }
  }
}
