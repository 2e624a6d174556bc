/**
  The camera of scripts/RayTrace/Camera.cpp: a position, a look-at point and an
  up vector, from which `CalculateParams` derives the screen basis (the right
  vector U, the up vector V and the screen centre) that `GetRay` shoots
  through.
 */
module Cameras {
  import opened Exceptions
  import opened Vectors
  import opened Utils
  import opened Rays

  /** `screenU_`, `screenV_` and `screenCenter_`. */
  datatype ScreenBasis = ScreenBasis(u: Vec3, v: Vec3, center: Vec3)

  /** The normalized direction from the camera position to the look-at point. */
  function LookDirection(pos: Vec3, lookAt: Vec3): Vec3
  {
    Normalize(Sub(lookAt, pos))
  }

  /**
    What `CalculateParams` derives: U = normalize(lookDir x up) scaled by the
    horizontal scale, V = normalize(U x lookDir) scaled by the horizontal
    scale over the aspect ratio, and the centre one look length along
    lookDir; it raises when lookDir x up is the zero vector.
   */
  function ScreenParams(pos: Vec3, lookAt: Vec3, up: Vec3, lookLength: real, horizontalScale: real,
                        aspectRatio: real): (r: Result<ScreenBasis>)
    requires aspectRatio != 0.0
    ensures r.Throw? <==> Cross(LookDirection(pos, lookAt), up) == Zero
    ensures r.Ok? ==> r.value.center == Add(pos, Scale(LookDirection(pos, lookAt), lookLength))
  {
    var lookDir := LookDirection(pos, lookAt);
    var u := Cross(lookDir, up);
    if Equals(u, Zero) then
      Throw(InvalidArgument("Camera up is the same as look direction, can't determine screen up"))
    else
      var unitU := Normalize(u);
      var unitV := Normalize(Cross(unitU, lookDir));
      Ok(ScreenBasis(Scale(unitU, horizontalScale), Scale(unitV, horizontalScale / aspectRatio),
                     Add(pos, Scale(lookDir, lookLength))))
  }

  /** A positive rescaling of either side keeps two vectors orthogonal. */
  lemma ScaledOrthogonal(a: Vec3, b: Vec3, j: real, k: real)
    requires Dot(a, b) == 0.0
    ensures Dot(Scale(a, j), Scale(b, k)) == 0.0
  {
    DotScale(a, Scale(b, k), j);
    DotScale(a, b, k);
  }

  /**
    The screen basis is orthogonal: U is orthogonal to the look direction,
    V to both U and the look direction, whatever the scales.
   */
  lemma ScreenBasisOrthogonal(pos: Vec3, lookAt: Vec3, up: Vec3, lookLength: real, horizontalScale: real,
                              aspectRatio: real)
    requires aspectRatio != 0.0
    requires ScreenParams(pos, lookAt, up, lookLength, horizontalScale, aspectRatio).Ok?
    ensures var b := ScreenParams(pos, lookAt, up, lookLength, horizontalScale, aspectRatio).value;
            var lookDir := LookDirection(pos, lookAt);
            Dot(b.u, lookDir) == 0.0 && Dot(b.v, lookDir) == 0.0 && Dot(b.u, b.v) == 0.0
  {
    var lookDir := LookDirection(pos, lookAt);
    var c := Cross(lookDir, up);
    var unitU := Normalize(c);
    var w := Cross(unitU, lookDir);
    var unitV := Normalize(w);
    var h, g := horizontalScale, horizontalScale / aspectRatio;
    NormalizeIsPositiveScaling(c);
    NormalizeIsPositiveScaling(w);
    var fc, fw := NormalizeFactor(c), NormalizeFactor(w);
    // U . lookDir
    CrossOrthogonal(lookDir, up);
    DotSymmetric(lookDir, c);
    ScaledOrthogonal(c, lookDir, fc, 1.0);
    assert Scale(lookDir, 1.0) == lookDir;
    ScaledOrthogonal(unitU, lookDir, h, 1.0);
    // V . lookDir and U . V
    CrossOrthogonal(unitU, lookDir);
    DotSymmetric(lookDir, w);
    ScaledOrthogonal(w, lookDir, fw, 1.0);
    ScaledOrthogonal(unitV, lookDir, g, 1.0);
    ScaledOrthogonal(unitU, w, 1.0, fw);
    assert Scale(unitU, 1.0) == unitU;
    ScaledOrthogonal(unitU, unitV, h, g);
  }

  /**
    The lengths of the screen basis: U is the unit right vector times the
    horizontal scale and V the unit up vector times the horizontal scale over
    the aspect ratio, so |U| = |aspectRatio| |V|, and neither is zero unless
    the horizontal scale is.
   */
  lemma ScreenBasisScale(pos: Vec3, lookAt: Vec3, up: Vec3, lookLength: real, horizontalScale: real,
                         aspectRatio: real)
    requires aspectRatio != 0.0
    requires ScreenParams(pos, lookAt, up, lookLength, horizontalScale, aspectRatio).Ok?
    ensures var b := ScreenParams(pos, lookAt, up, lookLength, horizontalScale, aspectRatio).value;
            Norm(b.u) == Abs(horizontalScale) && Norm(b.v) == Abs(horizontalScale / aspectRatio)
    ensures var b := ScreenParams(pos, lookAt, up, lookLength, horizontalScale, aspectRatio).value;
            Norm(b.u) == Abs(aspectRatio) * Norm(b.v)
    ensures var b := ScreenParams(pos, lookAt, up, lookLength, horizontalScale, aspectRatio).value;
            horizontalScale != 0.0 ==> b.u != Zero && b.v != Zero
  {
    var lookDir := LookDirection(pos, lookAt);
    var unitU := Normalize(Cross(lookDir, up));
    var unitV := Normalize(Cross(unitU, lookDir));
    hide *;
    ScreenParamsValue(pos, lookAt, up, lookLength, horizontalScale, aspectRatio);
    ScreenUnitVectors(lookDir, up);
    ScaledUnits(unitU, unitV, horizontalScale, aspectRatio);
  }

  /** The successful screen basis, spelled out. */
  lemma ScreenParamsValue(pos: Vec3, lookAt: Vec3, up: Vec3, lookLength: real, horizontalScale: real,
                          aspectRatio: real)
    requires aspectRatio != 0.0
    requires ScreenParams(pos, lookAt, up, lookLength, horizontalScale, aspectRatio).Ok?
    ensures var lookDir := LookDirection(pos, lookAt);
            var unitU := Normalize(Cross(lookDir, up));
            var unitV := Normalize(Cross(unitU, lookDir));
            Cross(lookDir, up) != Zero &&
            ScreenParams(pos, lookAt, up, lookLength, horizontalScale, aspectRatio).value.u
              == Scale(unitU, horizontalScale) &&
            ScreenParams(pos, lookAt, up, lookLength, horizontalScale, aspectRatio).value.v
              == Scale(unitV, horizontalScale / aspectRatio)
  {
  }

  /** Unit vectors scaled by h and by h / a have the norms |h| and |h / a|. */
  lemma ScaledUnits(u: Vec3, v: Vec3, h: real, a: real)
    requires a != 0.0 && Norm(u) == 1.0 && Norm(v) == 1.0
    ensures Norm(Scale(u, h)) == Abs(h) && Norm(Scale(v, h / a)) == Abs(h / a)
    ensures Norm(Scale(u, h)) == Abs(a) * Norm(Scale(v, h / a))
    ensures h != 0.0 ==> Scale(u, h) != Zero && Scale(v, h / a) != Zero
  {
    hide Norm;
    NormScale(u, h);
    NormScale(v, h / a);
    AbsOfQuotient(h, a);
  }

  /** Before scaling, the right and up vectors of the screen are unit vectors. */
  lemma ScreenUnitVectors(lookDir: Vec3, up: Vec3)
    requires Cross(lookDir, up) != Zero
    ensures Norm(Normalize(Cross(lookDir, up))) == 1.0
    ensures Norm(Normalize(Cross(Normalize(Cross(lookDir, up)), lookDir))) == 1.0
  {
    var c := Cross(lookDir, up);
    var unitU := Normalize(c);
    var w := Cross(unitU, lookDir);
    assert Cross(Zero, up) == Zero;
    hide Norm, Normalize, Cross, Dot;
    NormalizeIdempotent(c);
    // unitU and lookDir are nonzero and orthogonal, so their cross product is nonzero
    CrossOrthogonal(lookDir, up);
    DotSymmetric(lookDir, c);
    NormalizeKeepsDotSign(c, lookDir);
    CrossOfOrthogonal(unitU, lookDir);
    NormalizeIdempotent(w);
  }

  /**
    The point of the screen at normalized coordinates (x, y): center + U x + V y.
    It lies x along U and y along V from the centre, and (0, 0) is the centre.
   */
  function ScreenPoint(b: ScreenBasis, xNorm: real, yNorm: real): (r: Vec3)
    ensures Sub(r, b.center) == Add(Scale(b.u, xNorm), Scale(b.v, yNorm))
    ensures xNorm == 0.0 && yNorm == 0.0 ==> r == b.center
  {
    Add(Add(b.center, Scale(b.u, xNorm)), Scale(b.v, yNorm))
  }

  /**
    The screen is the plane through the centre perpendicular to the look
    direction: every screen point differs from the centre by a vector
    orthogonal to lookDir, and (0, 0) is the centre itself.
   */
  lemma ScreenIsPerpendicular(pos: Vec3, lookAt: Vec3, up: Vec3, lookLength: real, horizontalScale: real,
                              aspectRatio: real, xNorm: real, yNorm: real)
    requires aspectRatio != 0.0
    requires ScreenParams(pos, lookAt, up, lookLength, horizontalScale, aspectRatio).Ok?
    ensures var b := ScreenParams(pos, lookAt, up, lookLength, horizontalScale, aspectRatio).value;
            && Dot(Sub(ScreenPoint(b, xNorm, yNorm), b.center), LookDirection(pos, lookAt)) == 0.0
            && ScreenPoint(b, 0.0, 0.0) == b.center
  {
    var b := ScreenParams(pos, lookAt, up, lookLength, horizontalScale, aspectRatio).value;
    var lookDir := LookDirection(pos, lookAt);
    ScreenBasisOrthogonal(pos, lookAt, up, lookLength, horizontalScale, aspectRatio);
    var d := Add(Scale(b.u, xNorm), Scale(b.v, yNorm));
    assert Sub(ScreenPoint(b, xNorm, yNorm), b.center) == d;
    DotSymmetric(b.u, lookDir);
    DotSymmetric(b.v, lookDir);
    DotScale(lookDir, b.u, xNorm);
    DotScale(lookDir, b.v, yNorm);
    DotAddSub(lookDir, Scale(b.u, xNorm), Scale(b.v, yNorm));
    DotSymmetric(d, lookDir);
  }

  /** The default camera, looking from (8, 8, 16) at (4, 0, 4) with up (0, 1, 0), is not degenerate. */
  lemma DefaultCameraIsValid()
    ensures ScreenParams(DEFAULT_CAMERA_POS, DEFAULT_CAMERA_LOOKAT, DEFAULT_CAMERA_UP, DEFAULT_CAMERA_LENGTH,
                         DEFAULT_CAMERA_HORSCALE, DEFAULT_CAMERA_ASPECT).Ok?
  {
    var d := Sub(DEFAULT_CAMERA_LOOKAT, DEFAULT_CAMERA_POS);
    NormalizeIsPositiveScaling(d);
    var lookDir := LookDirection(DEFAULT_CAMERA_POS, DEFAULT_CAMERA_LOOKAT);
    assert lookDir.z == -12.0 * NormalizeFactor(d);
    assert Cross(lookDir, DEFAULT_CAMERA_UP).x == -lookDir.z;
  }

  /** An up vector along the look direction gives no screen basis. */
  lemma UpAlongLookThrows(pos: Vec3, lookAt: Vec3, lookLength: real, horizontalScale: real, aspectRatio: real,
                          k: real)
    requires aspectRatio != 0.0
    ensures ScreenParams(pos, lookAt, Scale(LookDirection(pos, lookAt), k), lookLength, horizontalScale,
                         aspectRatio).Throw?
  {
    hide ScreenParams, LookDirection;
    var l := LookDirection(pos, lookAt);
    var c := Cross(l, Scale(l, k));
    assert c.x == l.y * (l.z * k) - l.z * (l.y * k) == 0.0;
    assert c.y == l.z * (l.x * k) - l.x * (l.z * k) == 0.0;
    assert c.z == l.x * (l.y * k) - l.y * (l.x * k) == 0.0;
  }

  /** `Camera`: the placement inputs and the screen basis derived from them. */
  class Camera {
    var pos: Vec3
    var lookAt: Vec3
    var up: Vec3
    var screenU: Vec3
    var screenV: Vec3
    var screenCenter: Vec3
    var lookLength: real
    var aspectRatio: real
    var horizontalScale: real

    /** The screen basis is the one the current inputs determine. */
    ghost predicate Calculated()
      reads this
    {
      && aspectRatio != 0.0
      && ScreenParams(pos, lookAt, up, lookLength, horizontalScale, aspectRatio) ==
         Ok(ScreenBasis(screenU, screenV, screenCenter))
    }

    /** `Camera()`: the `DEFAULT_CAMERA_*` inputs, then `CalculateParams`. */
    constructor ()
      ensures pos == DEFAULT_CAMERA_POS && lookAt == DEFAULT_CAMERA_LOOKAT && up == DEFAULT_CAMERA_UP
      ensures lookLength == DEFAULT_CAMERA_LENGTH && horizontalScale == DEFAULT_CAMERA_HORSCALE
      ensures aspectRatio == DEFAULT_CAMERA_ASPECT
      ensures Calculated()
    {
      pos := DEFAULT_CAMERA_POS;
      lookAt := DEFAULT_CAMERA_LOOKAT;
      up := DEFAULT_CAMERA_UP;
      lookLength := DEFAULT_CAMERA_LENGTH;
      horizontalScale := DEFAULT_CAMERA_HORSCALE;
      aspectRatio := DEFAULT_CAMERA_ASPECT;
      new;
      DefaultCameraIsValid();
      hide ScreenParams;
      var r := CalculateParams();
    }

    /** `SetPos`: only the position changes; the basis is not recomputed. */
    method SetPos(p: Vec3)
      modifies this
      ensures pos == p
      ensures lookAt == old(lookAt) && up == old(up) && lookLength == old(lookLength)
      ensures aspectRatio == old(aspectRatio) && horizontalScale == old(horizontalScale)
      ensures screenU == old(screenU) && screenV == old(screenV) && screenCenter == old(screenCenter)
    {
      pos := p;
    }

    /** `SetLookAt`: only the look-at point changes. */
    method SetLookAt(p: Vec3)
      modifies this
      ensures lookAt == p
      ensures pos == old(pos) && up == old(up) && lookLength == old(lookLength)
      ensures aspectRatio == old(aspectRatio) && horizontalScale == old(horizontalScale)
      ensures screenU == old(screenU) && screenV == old(screenV) && screenCenter == old(screenCenter)
    {
      lookAt := p;
    }

    /** `SetUp`: only the up vector changes. */
    method SetUp(v: Vec3)
      modifies this
      ensures up == v
      ensures pos == old(pos) && lookAt == old(lookAt) && lookLength == old(lookLength)
      ensures aspectRatio == old(aspectRatio) && horizontalScale == old(horizontalScale)
      ensures screenU == old(screenU) && screenV == old(screenV) && screenCenter == old(screenCenter)
    {
      up := v;
    }

    /** `SetLookLength`: only the look length changes. */
    method SetLookLength(l: real)
      modifies this
      ensures lookLength == l
      ensures pos == old(pos) && lookAt == old(lookAt) && up == old(up)
      ensures aspectRatio == old(aspectRatio) && horizontalScale == old(horizontalScale)
      ensures screenU == old(screenU) && screenV == old(screenV) && screenCenter == old(screenCenter)
    {
      lookLength := l;
    }

    /** `SetAspectRatio`: only the aspect ratio changes. */
    method SetAspectRatio(a: real)
      modifies this
      ensures aspectRatio == a
      ensures pos == old(pos) && lookAt == old(lookAt) && up == old(up)
      ensures lookLength == old(lookLength) && horizontalScale == old(horizontalScale)
      ensures screenU == old(screenU) && screenV == old(screenV) && screenCenter == old(screenCenter)
    {
      aspectRatio := a;
    }

    /** `SetHorizontalScale`: only the horizontal scale changes. */
    method SetHorizontalScale(s: real)
      modifies this
      ensures horizontalScale == s
      ensures pos == old(pos) && lookAt == old(lookAt) && up == old(up)
      ensures lookLength == old(lookLength) && aspectRatio == old(aspectRatio)
      ensures screenU == old(screenU) && screenV == old(screenV) && screenCenter == old(screenCenter)
    {
      horizontalScale := s;
    }

    /**
      `CalculateParams`: recomputes the screen basis from the inputs. When
      lookDir x up is zero it raises after having stored that zero vector in
      `screenU_`, leaving V and the centre as they were.
     */
    method CalculateParams() returns (r: Result<()>)
      requires aspectRatio != 0.0
      modifies this
      ensures pos == old(pos) && lookAt == old(lookAt) && up == old(up) && lookLength == old(lookLength)
      ensures aspectRatio == old(aspectRatio) && horizontalScale == old(horizontalScale)
      ensures var p := ScreenParams(pos, lookAt, up, lookLength, horizontalScale, aspectRatio);
        && (p.Ok? ==> r.Ok? && Calculated())
        && (p.Throw? ==> r == Throw(p.error) && screenU == Zero &&
                         screenV == old(screenV) && screenCenter == old(screenCenter))
    {
      var lookDir := Sub(lookAt, pos);
      lookDir := Normalize(lookDir);
      screenU := Cross(lookDir, up);
      if Equals(screenU, Zero) {
        return Throw(InvalidArgument("Camera up is the same as look direction, can't determine screen up"));
      }
      screenU := Normalize(screenU);
      screenV := Cross(screenU, lookDir);
      screenV := Normalize(screenV);
      screenU := Scale(screenU, horizontalScale);
      screenV := Scale(screenV, horizontalScale / aspectRatio);
      screenCenter := Add(pos, Scale(lookDir, lookLength));
      r := Ok(());
    }

    /**
      `GetRay`: the ray from the camera position through the screen point at
      normalized coordinates (x, y).
     */
    function GetRay(xNorm: real, yNorm: real): (r: Ray)
      reads this
      ensures r.start == pos
      ensures r.screen == ScreenPoint(ScreenBasis(screenU, screenV, screenCenter), xNorm, yNorm)
    {
      var screenPoint := Add(Add(screenCenter, Scale(screenU, xNorm)), Scale(screenV, yNorm));
      MakeRay(pos, screenPoint)
    }

    /**
      On a calculated camera, the ray for (0, 0) aims at the centre, and every
      ray passes through the screen plane perpendicular to the look direction.
     */
    lemma GetRayThroughScreen(xNorm: real, yNorm: real)
      requires Calculated()
      ensures GetRay(0.0, 0.0).screen == screenCenter
      ensures Dot(Sub(GetRay(xNorm, yNorm).screen, screenCenter), LookDirection(pos, lookAt)) == 0.0
      ensures screenCenter == Add(pos, Scale(LookDirection(pos, lookAt), lookLength))
    {
      ScreenIsPerpendicular(pos, lookAt, up, lookLength, horizontalScale, aspectRatio, xNorm, yNorm);
      ScreenIsPerpendicular(pos, lookAt, up, lookLength, horizontalScale, aspectRatio, 0.0, 0.0);
    }
  }
}
