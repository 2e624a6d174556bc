/**
  The materials of scripts/RayTrace/Material.cpp: how a hit ray scatters off a
  Lambertian, metallic or dielectric surface, and Schlick's approximation to
  the Fresnel reflectance.

  `Scatter` fills an out-parameter `ScatterPayload`; the model returns the
  success flag and the new payload. The random draws (`RandomUnitVector`,
  `RandomDouble`) and the refracted direction (`GetRefracted`, whose body is
  not part of this model) are parameters.
 */
module Materials {
  import opened Exceptions
  import opened Vectors
  import opened Utils
  import opened Rays
  import opened Pdfs

  /** The three material kinds and their fields (`albedo_`, `fuzz_`, `refractionIndex_`, `transparency_`). */
  datatype Material =
    | Lambertian(albedo: Vec3)
    | Metal(albedo: Vec3, fuzz: real)
    | Dielectric(refractionIndex: real, albedo: Vec3, transparency: Vec3)

  /** `Dielectric()` with its default arguments. */
  const DefaultDielectric: Material := Dielectric(BASE_REFRACTION_INDEX, BASE_ALBEDO, BASE_TRANSPARENCY)

  /** `ScatterPayload`: the damping, whether to skip importance sampling, the ray to follow then, the sampling density. */
  datatype ScatterPayload = ScatterPayload(damping: Vec3, skipPDF: bool, skipPDFRay: Ray, pdf: Option<CosinePdf>)

  /** `Lambertian::Scatter`: diffuse; always scatters, with cosine importance sampling around the hit normal. */
  function LambertianScatter(albedo: Vec3, hit: HitPayload, sp: ScatterPayload): (r: (bool, ScatterPayload))
    ensures r.0
    ensures r.1.damping == albedo && !r.1.skipPDF
    ensures r.1.pdf.Some? && r.1.pdf.value.w == Normalize(hit.hitNormal)
    ensures r.1.skipPDFRay == sp.skipPDFRay
  {
    (true, sp.(damping := albedo, pdf := Some(MakeCosinePdf(hit.hitNormal)), skipPDF := false))
  }

  /**
    `Metal::Scatter`: always scatters, without importance sampling, along the
    mirror direction perturbed by `fuzz` times a random unit vector.
   */
  function MetalScatter(albedo: Vec3, fuzz: real, ray: Ray, hit: HitPayload, sp: ScatterPayload,
                        randomUnitVector: Vec3): (r: (bool, ScatterPayload))
    ensures r.0
    ensures r.1.damping == albedo && r.1.skipPDF && r.1.pdf.None?
    ensures r.1.skipPDFRay.start == hit.hitPoint
    ensures Sub(r.1.skipPDFRay.screen, hit.hitPoint)
            == Add(Normalize(GetReflected(ray, hit.hitNormal)), ScaleLeft(fuzz, randomUnitVector))
  {
    var reflected := GetReflected(ray, hit.hitNormal);
    var perturbed := Add(Normalize(reflected), ScaleLeft(fuzz, randomUnitVector));
    var follow := MakeRay(hit.hitPoint, Add(hit.hitPoint, perturbed));
    assert Sub(Add(hit.hitPoint, perturbed), hit.hitPoint) == perturbed;
    (true, sp.(skipPDFRay := follow, pdf := None, skipPDF := true, damping := albedo))
  }

  /** With no fuzz, a metal sends the ray exactly along the mirror direction. */
  lemma {:induction false} MetalWithoutFuzzMirrors(albedo: Vec3, ray: Ray, hit: HitPayload, sp: ScatterPayload,
                                                   randomUnitVector: Vec3)
    ensures MetalScatter(albedo, 0.0, ray, hit, sp, randomUnitVector).1.skipPDFRay.direction
            == GetReflected(ray, hit.hitNormal)
  {
    var reflected := GetReflected(ray, hit.hitNormal);
    var m := MirrorDirection(ray.direction, hit.hitNormal);
    var perturbed := Add(Normalize(reflected), ScaleLeft(0.0, randomUnitVector));
    assert perturbed == Normalize(reflected);
    assert Sub(Add(hit.hitPoint, perturbed), hit.hitPoint) == perturbed;
    NormalizeIdempotent(m);
    NormalizeIdempotent(Normalize(m));
  }

  /** A ray hitting a metal head-on (against a unit normal, without fuzz) is sent straight back. */
  lemma MetalHeadOnReturns(albedo: Vec3, ray: Ray, hit: HitPayload, sp: ScatterPayload, randomUnitVector: Vec3)
    requires IsUnit(hit.hitNormal)
    requires ray.direction == Neg(hit.hitNormal)
    ensures MetalScatter(albedo, 0.0, ray, hit, sp, randomUnitVector).1.skipPDFRay.direction
            == Normalize(hit.hitNormal)
  {
    MetalWithoutFuzzMirrors(albedo, ray, hit, sp, randomUnitVector);
    MirrorOfReversedNormal(hit.hitNormal);
  }

  /** The relative index of refraction: 1 / index when entering through the front face, the index otherwise. */
  function RelativeIndex(refractionIndex: real, frontFace: bool): (ri: real)
    requires refractionIndex != 0.0
    ensures frontFace ==> ri * refractionIndex == 1.0
    ensures !frontFace ==> ri == refractionIndex
  {
    if frontFace then 1.0 / refractionIndex else refractionIndex
  }

  /**
    `ri * sinTheta > 1` with `sinTheta = sqrt(1 - cos^2)`, without the square
    root: a NaN sine (cos^2 > 1) compares false, and otherwise both sides are
    squared, which is exact since they are not negative.
   */
  predicate CannotRefract(ri: real, cosTheta: real): (r: bool)
    ensures r ==> ri > 1.0 && cosTheta * cosTheta < 1.0
    ensures ri <= 1.0 ==> !r
  {
    var sin2 := 1.0 - cosTheta * cosTheta;
    if sin2 >= 0.0 && ri > 0.0 && ri * ri * sin2 > 1.0 then
      assert ri > 1.0 && sin2 > 0.0 by {
        assert cosTheta * cosTheta >= 0.0;
        assert sin2 <= 1.0;
        assert (ri * ri - 1.0) * sin2 == ri * ri * sin2 - sin2;
        assert (ri * ri - 1.0) * sin2 > 0.0;
        assert sin2 > 0.0 && ri * ri - 1.0 > 0.0;
        assert (ri - 1.0) * (ri + 1.0) > 0.0;
      }
      true
    else
      false
  }

  /** For every admissible sine, `CannotRefract` is the source's test `ri * sin > 1`. */
  lemma CannotRefractIsSineTest(ri: real, cosTheta: real, sinTheta: real)
    requires sinTheta >= 0.0 && sinTheta * sinTheta == 1.0 - cosTheta * cosTheta
    ensures CannotRefract(ri, cosTheta) <==> ri * sinTheta > 1.0
  {
    var p := ri * sinTheta;
    assert p * p == ri * ri * (1.0 - cosTheta * cosTheta);
    if ri > 0.0 {
      assert p >= 0.0;
      if p > 1.0 {
        assert p * p > 1.0 * p;
      } else {
        assert p * p <= 1.0 * 1.0;
      }
    } else {
      assert p <= 0.0;
    }
  }

  function Pow5(x: real): real
  {
    x * x * x * x * x
  }

  /**
    `Dielectric::Reflectance`: Schlick's approximation r0 + (1 - r0)(1 - cos)^5,
    r0 = ((1 - ri) / (1 + ri))^2. For a cosine in [0, 1] and a positive index
    it is a probability no smaller than r0.
   */
  function Reflectance(cosine: real, refractionIndex: real): (r: real)
    requires refractionIndex != -1.0
    ensures 0.0 <= cosine <= 1.0 && refractionIndex > 0.0 ==>
            var r0 := (1.0 - refractionIndex) / (1.0 + refractionIndex);
            r0 * r0 <= r <= 1.0
  {
    var r0 := (1.0 - refractionIndex) / (1.0 + refractionIndex);
    var x := 1.0 - cosine;
    if 0.0 <= cosine <= 1.0 && refractionIndex > 0.0 then
      SchlickBounds(refractionIndex, r0, x);
      r0 * r0 + (1.0 - r0 * r0) * Pow5(x)
    else
      r0 * r0 + (1.0 - r0 * r0) * Pow5(x)
  }

  /** Reflectance at the base: at normal incidence (cos = 1) it is exactly r0. */
  lemma ReflectanceAtNormalIncidence(refractionIndex: real)
    requires refractionIndex != -1.0
    ensures var r0 := (1.0 - refractionIndex) / (1.0 + refractionIndex);
            Reflectance(1.0, refractionIndex) == r0 * r0
  {
  }

  /** For x in [0, 1] and a positive index, r0 + (1 - r0) x^5 lies in [r0, 1]. */
  lemma {:induction false} SchlickBounds(refractionIndex: real, r0: real, x: real)
    requires refractionIndex > 0.0 && r0 == (1.0 - refractionIndex) / (1.0 + refractionIndex)
    requires 0.0 <= x <= 1.0
    ensures r0 * r0 <= r0 * r0 + (1.0 - r0 * r0) * Pow5(x) <= 1.0
  {
    var r0sq := r0 * r0;
    assert 0.0 <= r0sq < 1.0 by {
      assert -1.0 < r0 < 1.0 by {
        assert r0 * (1.0 + refractionIndex) == 1.0 - refractionIndex;
      }
      if r0 >= 0.0 {
        assert r0 * r0 <= r0 * 1.0;
      } else {
        assert r0 * r0 <= (-r0) * 1.0;
      }
    }
    assert 0.0 <= Pow5(x) <= 1.0 by {
      assert 0.0 <= x * x <= x;
      assert 0.0 <= x * x * x <= x * x;
      assert 0.0 <= x * x * x * x <= x * x * x;
      assert 0.0 <= x * x * x * x * x <= x * x * x * x;
    }
    var d := 1.0 - r0sq;
    assert 0.0 <= d * Pow5(x) <= d * 1.0;
  }

  /**
    The dielectric's outgoing direction: the mirror direction under total
    internal reflection, else the mirror direction when the reflectance beats
    the draw, else the refracted direction.
   */
  function DielectricDirection(ri: real, cosTheta: real, reflected: Vec3, refracted: Vec3, randomDouble: real): (r: Vec3)
    requires ri != -1.0
    ensures r == reflected || r == refracted
    ensures CannotRefract(ri, cosTheta) ==> r == reflected
    ensures 0.0 <= cosTheta <= 1.0 && ri > 0.0 && randomDouble < Reflectance(1.0, ri) ==> r == reflected
  {
    if CannotRefract(ri, cosTheta) || Reflectance(cosTheta, ri) > randomDouble then reflected else refracted
  }

  /** The follow-up ray: starts a thousandth of the way along `direction` from the hit point, aims at hitPoint + direction. */
  function FollowUpRay(hitPoint: Vec3, direction: Vec3): (r: Ray)
    ensures r.start == Add(hitPoint, ScaleLeft(0.001, direction)) && r.screen == Add(hitPoint, direction)
    ensures r.direction == Normalize(direction)
  {
    var start := Add(hitPoint, Scale(direction, 0.001));
    var screen := Add(hitPoint, direction);
    assert Sub(screen, start) == Scale(direction, 0.999);
    NormalizeScaleInvariant(direction, 0.999);
    MakeRay(start, screen)
  }

  /** The cosine of the incidence angle, clamped above by 1 (`fmin`). */
  function CosTheta(ray: Ray, hit: HitPayload): (c: real)
    ensures c <= 1.0
    ensures c == 1.0 || c == Dot(Neg(Normalize(ray.direction)), hit.hitNormal)
  {
    Min(Dot(Neg(Normalize(ray.direction)), hit.hitNormal), 1.0)
  }

  /**
    `Dielectric::Scatter`: always scatters without importance sampling. The
    damping is the albedo on the last bounce and the transparency before.
   */
  function DielectricScatter(refractionIndex: real, albedo: Vec3, transparency: Vec3, ray: Ray, hit: HitPayload,
                             sp: ScatterPayload, depth: int, randomDouble: real, refracted: Vec3): (r: (bool, ScatterPayload))
    requires refractionIndex != 0.0 && refractionIndex != -1.0
    ensures r.0 && r.1.skipPDF && r.1.pdf.None?
    ensures depth == BOUNCES ==> r.1.damping == albedo
    ensures depth != BOUNCES ==> r.1.damping == transparency
    ensures var ri := RelativeIndex(refractionIndex, hit.frontFace);
            r.1.skipPDFRay == FollowUpRay(hit.hitPoint,
              DielectricDirection(ri, CosTheta(ray, hit), GetReflected(ray, hit.hitNormal), refracted, randomDouble))
  {
    var damping := if depth == BOUNCES then albedo else transparency;
    var ri := RelativeIndex(refractionIndex, hit.frontFace);
    assert ri != -1.0;
    var cosTheta := CosTheta(ray, hit);
    var direction := DielectricDirection(ri, cosTheta, GetReflected(ray, hit.hitNormal), refracted, randomDouble);
    (true, sp.(damping := damping, pdf := None, skipPDF := true, skipPDFRay := FollowUpRay(hit.hitPoint, direction)))
  }

  /** Under total internal reflection the dielectric reflects whatever the random draw. */
  lemma TotalInternalReflection(ri: real, cosTheta: real, reflected: Vec3, refracted: Vec3, draw1: real, draw2: real)
    requires ri != -1.0
    requires CannotRefract(ri, cosTheta)
    ensures DielectricDirection(ri, cosTheta, reflected, refracted, draw1) == reflected
    ensures DielectricDirection(ri, cosTheta, reflected, refracted, draw1)
            == DielectricDirection(ri, cosTheta, reflected, refracted, draw2)
  {
  }

  /**
    Otherwise it reflects exactly for the draws below the reflectance: a lower
    draw never turns a reflection into a refraction.
   */
  lemma ReflectionBelowReflectance(ri: real, cosTheta: real, reflected: Vec3, refracted: Vec3, draw: real, lower: real)
    requires ri != -1.0 && reflected != refracted
    requires !CannotRefract(ri, cosTheta)
    requires lower <= draw
    ensures DielectricDirection(ri, cosTheta, reflected, refracted, draw) == reflected
            <==> Reflectance(cosTheta, ri) > draw
    ensures DielectricDirection(ri, cosTheta, reflected, refracted, draw) == reflected
            ==> DielectricDirection(ri, cosTheta, reflected, refracted, lower) == reflected
  {
  }

  /** `Material::Scatter` dispatched on the kind of material. */
  function Scatter(m: Material, ray: Ray, hit: HitPayload, sp: ScatterPayload, depth: int,
                   randomUnitVector: Vec3, randomDouble: real, refracted: Vec3): (r: (bool, ScatterPayload))
    requires m.Dielectric? ==> m.refractionIndex != 0.0 && m.refractionIndex != -1.0
    ensures r.0
    ensures r.1.skipPDF <==> !m.Lambertian?
    ensures r.1.pdf.Some? <==> m.Lambertian?
    ensures (m.Lambertian? || m.Metal?) ==> r.1.damping == m.albedo
  {
    match m
    case Lambertian(albedo) => LambertianScatter(albedo, hit, sp)
    case Metal(albedo, fuzz) => MetalScatter(albedo, fuzz, ray, hit, sp, randomUnitVector)
    case Dielectric(refractionIndex, albedo, transparency) =>
      DielectricScatter(refractionIndex, albedo, transparency, ray, hit, sp, depth, randomDouble, refracted)
  }

  /**
    `ScatteringPDF`: max(0, cos / pi) between the hit normal and the scattered
    direction for a Lambertian surface; the base class, which metals and
    dielectrics inherit, returns `false`, i.e. 0.
   */
  function ScatteringPDF(m: Material, ray: Ray, hit: HitPayload, scattered: Ray): (r: real)
    ensures r >= 0.0
    ensures !m.Lambertian? ==> r == 0.0
    ensures m.Lambertian? ==> (r > 0.0 <==> Dot(hit.hitNormal, scattered.direction) > 0.0)
  {
    match m
    case Lambertian(_) =>
      var cosineTheta := Dot(hit.hitNormal, Normalize(scattered.direction));
      DotWithNormalizedSign(hit.hitNormal, scattered.direction);
      CosineDensitySign(cosineTheta);
      Max(0.0, cosineTheta / PI)
    case _ => 0.0
  }

  lemma DotWithNormalizedSign(a: Vec3, b: Vec3)
    ensures Dot(a, Normalize(b)) > 0.0 <==> Dot(a, b) > 0.0
  {
    NormalizeKeepsDotSign(b, a);
    DotSymmetric(a, b);
    DotSymmetric(a, Normalize(b));
  }

  /**
    For a normalized hit normal, the density a Lambertian surface scatters with
    is the density its cosine frame samples with, so importance sampling is unbiased.
   */
  lemma {:induction false} LambertianSamplesItsOwnDensity(albedo: Vec3, ray: Ray, hit: HitPayload, sp: ScatterPayload,
                                                          scattered: Ray)
    requires Normalize(hit.hitNormal) == hit.hitNormal
    ensures var p := LambertianScatter(albedo, hit, sp).1.pdf.value;
            ScatteringPDF(Lambertian(albedo), ray, hit, scattered) == Value(p, scattered.direction)
  {
    var p := LambertianScatter(albedo, hit, sp).1.pdf.value;
    assert p.w == hit.hitNormal;
    DotSymmetric(hit.hitNormal, Normalize(scattered.direction));
  }
}
