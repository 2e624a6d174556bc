/**
  `RT::CosinePDF` of scripts/RayTrace/PDF.cpp: an orthonormal frame around a
  hit normal, the change of basis into it, and the cosine density.

  The constructor fills `axis_` once with three entries; the model keeps the
  three axes as named fields `u`, `v`, `w` (`axis_[0..2]`).
 */
module Pdfs {
  import opened Vectors
  import opened Utils

  /** The frame `axis_ = [u, v, w]`, `w` being the normalized hit normal. */
  datatype CosinePdf = CosinePdf(u: Vec3, v: Vec3, w: Vec3) {
    /** `axis_[i]` */
    function Axis(i: nat): (r: Vec3)
      requires i < DIMS_3D
      ensures i == 0 ==> r == u
      ensures i == 1 ==> r == v
      ensures i == 2 ==> r == w
    {
      if i == 0 then u else if i == 1 then v else w
    }
  }

  /** The helper axis: (0, 1, 0) when the normal leans on x (|n.x| > 0.9), else (1, 0, 0). */
  function HelperAxis(n: Vec3): (a: Vec3)
    ensures Abs(n.x) > 0.9 ==> a == Vec3(0.0, 1.0, 0.0)
    ensures Abs(n.x) <= 0.9 ==> a == Vec3(1.0, 0.0, 0.0)
  {
    if Abs(n.x) > 0.9 then Vec3(0.0, 1.0, 0.0) else Vec3(1.0, 0.0, 0.0)
  }

  /**
    The `CosinePDF(hitNormal)` constructor. The three axes are pairwise
    orthogonal and the third is the normalized hit normal.
   */
  function MakeCosinePdf(hitNormal: Vec3): (p: CosinePdf)
    ensures p.w == Normalize(hitNormal)
    ensures Dot(p.u, p.w) == 0.0 && Dot(p.v, p.w) == 0.0 && Dot(p.u, p.v) == 0.0
  {
    var n := Normalize(hitNormal);
    var a := HelperAxis(n);
    var v := Normalize(Cross(n, a));
    var u := Cross(n, v);
    FrameIsOrthogonal(n, a);
    CosinePdf(u, v, n)
  }

  /** The axes built from `n` and any helper `a` are orthogonal to each other. */
  lemma FrameIsOrthogonal(n: Vec3, a: Vec3)
    ensures var v := Normalize(Cross(n, a));
            Dot(Cross(n, v), n) == 0.0 && Dot(v, n) == 0.0 && Dot(Cross(n, v), v) == 0.0
  {
    var c := Cross(n, a);
    var v := Normalize(c);
    CrossOrthogonal(n, v);
    DotSymmetric(Cross(n, v), n);
    DotSymmetric(Cross(n, v), v);
    CrossOrthogonal(n, a);
    DotSymmetric(c, n);
    NormalizeKeepsDotSign(c, n);
  }

  /**
    For a nonzero hit normal the helper axis is never parallel to the
    normalized normal, so the second axis is not the zero vector.
   */
  lemma {:induction false} FrameIsNondegenerate(hitNormal: Vec3)
    requires hitNormal != Zero
    ensures MakeCosinePdf(hitNormal).v != Zero
  {
    var n := Normalize(hitNormal);
    var a := HelperAxis(n);
    NormalizeIdempotent(hitNormal);
    assert Norm(n) == 1.0;
    if Abs(n.x) > 0.9 {
      assert Cross(n, a) == Vec3(-n.z, 0.0, n.x);
      assert n.x != 0.0;
    } else {
      assert Cross(n, a) == Vec3(0.0, n.z, -n.y);
      if n.y == 0.0 && n.z == 0.0 {
        assert false;
      }
    }
  }

  /** `Local(a)`: the coordinates `a` taken in the frame, a0 u + a1 v + a2 w. */
  function Local(p: CosinePdf, a: Vec3): (r: Vec3)
    ensures forall i :: 0 <= i < DIMS_3D ==>
      r.At(i) == a.x * p.u.At(i) + a.y * p.v.At(i) + a.z * p.w.At(i)
  {
    Add(Add(ScaleLeft(a.At(0), p.Axis(0)), ScaleLeft(a.At(1), p.Axis(1))), ScaleLeft(a.At(2), p.Axis(2)))
  }

  /** The frame's axes are the images of the unit coordinate vectors; in particular (0, 0, 1) maps to `w`. */
  lemma LocalMapsUnitVectorsToAxes(p: CosinePdf)
    ensures Local(p, Vec3(1.0, 0.0, 0.0)) == p.u
    ensures Local(p, Vec3(0.0, 1.0, 0.0)) == p.v
    ensures Local(p, Vec3(0.0, 0.0, 1.0)) == p.w
  {
  }

  /**
    `Value(direction)`: the cosine density max(0, cos(theta) / pi). It is never
    negative, and positive exactly for directions on the normal's side.
   */
  function Value(p: CosinePdf, direction: Vec3): (r: real)
    ensures r >= 0.0
    ensures r > 0.0 <==> Dot(direction, p.w) > 0.0
  {
    var cosineTheta := Dot(Normalize(direction), p.w);
    NormalizeKeepsDotSign(direction, p.w);
    CosineDensitySign(cosineTheta);
    Max(0.0, cosineTheta / PI)
  }

  /** max(0, c / pi) is positive exactly when c is. */
  lemma CosineDensitySign(c: real)
    ensures Max(0.0, c / PI) >= 0.0
    ensures Max(0.0, c / PI) > 0.0 <==> c > 0.0
  {
    if c > 0.0 {
      assert c / PI > 0.0;
    } else {
      assert c / PI <= 0.0;
    }
  }
}
