/**
  The non-windowing part of `RT::Scene` in scripts/RayTrace/Scene.cpp: the
  closest-hit search over the object list (`RayTrace`), the bounce loop that
  accumulates a pixel's colour (`PerPixel`), and the three colour grids with
  their single-slot writes (`SetPixelColor`) and their packing into a texture
  (`Display`).
 */
module Scenes {
  import opened Exceptions
  import opened Vectors
  import opened Utils
  import opened Rays
  import opened Objects
  import opened Intersections
  import opened Pixels

  /** The limit below which `RayTrace` accepts a hit (`1e9`). */
  const HIT_LIMIT: real := 1000000000.0

  /** The colour a bounce that hits nothing adds. */
  const SKY_COLOR: Vec3 := Vec3(0.6, 0.7, 0.9)

  /** The factor the running colour is multiplied by after every bounce. */
  const BOUNCE_GAIN: real := 9.0

  /** The divisor the source applies to the colour after the last bounce: 819, the gain of three bounces. */
  const PIXEL_DIVISOR: real := 819.0

  /**
    The divisor the model applies instead: g(`BOUNCES`), the gain of
    `BOUNCES` bounces, which keeps every pixel within [0, 1] (`PixelWithinRange`).
   */
  const BOUNCES_GAIN: real := MissGain(BOUNCES)

  /** The objects a list of shared pointers points to. */
  function Targets(objects: seq<SceneObject>): set<object>
  {
    set k | 0 <= k < |objects| :: Target(objects[k])
  }

  /** The current shapes of the objects, in list order. */
  function Shapes(objects: seq<SceneObject>): (r: seq<Shape>)
    reads Targets(objects)
    ensures |r| == |objects|
    ensures forall k :: 0 <= k < |objects| ==> r[k] == ShapeOf(objects[k])
  {
    seq(|objects|, k requires 0 <= k < |objects| reads Targets(objects) => ShapeOf(objects[k]))
  }

  /** Every shape can be tested: the caches of every mesh are sized to its faces. */
  predicate AllShapesReady(shapes: seq<Shape>)
  {
    forall k :: 0 <= k < |shapes| ==> Ready(shapes[k])
  }

  /** A list of objects with one testable shape each. */
  predicate Described(objects: seq<SceneObject>, shapes: seq<Shape>)
  {
    |shapes| == |objects| && AllShapesReady(shapes)
  }

  // ---------------------------------------------------------------------
  // RayTrace: the closest accepted hit
  // ---------------------------------------------------------------------

  /**
    The reference parameters `RayTrace` updates: `closestU`, `closestV`,
    `closestHitDist`, `closestHitNormal` and `pClosestObject` (`None` for a
    null pointer).
   */
  datatype Closest = Closest(u: real, v: real, hitDist: real, hitNormal: Vec3, obj: Option<SceneObject>)

  /** A payload is taken when it is nearer than the one kept and nearer than `1e9`. */
  predicate Accepts(c: Closest, p: HitPayload)
  {
    p.hitDist < c.hitDist && p.hitDist < HIT_LIMIT
  }

  /** One step of the loop: take the payload of object `o` if it is accepted. */
  function Keep(c: Closest, p: HitPayload, o: SceneObject): Closest
  {
    if Accepts(c, p) then Closest(p.u, p.v, p.hitDist, p.hitNormal, Some(o)) else c
  }

  /** The loop over (payload, object) pairs in list order. */
  function KeepAll(c: Closest, hits: seq<(HitPayload, SceneObject)>): Closest
  {
    if |hits| == 0 then c
    else
      var last := hits[|hits| - 1];
      Keep(KeepAll(c, hits[..|hits| - 1]), last.0, last.1)
  }

  /** What the loop reads from a payload when it takes it. */
  function Taken(h: (HitPayload, SceneObject)): Closest
  {
    Closest(h.0.u, h.0.v, h.0.hitDist, h.0.hitNormal, Some(h.1))
  }

  /**
    What `RayTrace` leaves in its reference parameters: either they are
    untouched, and then no payload was acceptable, or u, v, distance, normal
    and object all come from one payload `k` that was acceptable, no
    acceptable payload is nearer, and every acceptable payload before `k` is
    strictly farther (the first of the nearest wins).
   */
  lemma {:induction false} KeepAllIsFirstNearest(c: Closest, hits: seq<(HitPayload, SceneObject)>)
    ensures var r := KeepAll(c, hits);
      && r.hitDist <= c.hitDist
      && (forall k :: 0 <= k < |hits| && Accepts(c, hits[k].0) ==> r.hitDist <= hits[k].0.hitDist)
      && (r.hitDist < c.hitDist <==> exists k :: 0 <= k < |hits| && Accepts(c, hits[k].0))
      && ((forall k :: 0 <= k < |hits| ==> !Accepts(c, hits[k].0)) ==> r == c)
      && (r == c || exists k :: 0 <= k < |hits| && Accepts(c, hits[k].0) && r == Taken(hits[k]) &&
                                forall j :: 0 <= j < k && Accepts(c, hits[j].0) ==> r.hitDist < hits[j].0.hitDist)
  {
    if |hits| > 0 {
      var n := |hits| - 1;
      var init := hits[..n];
      KeepAllIsFirstNearest(c, init);
      assert forall k :: 0 <= k < n ==> init[k] == hits[k];
      var prev := KeepAll(c, init);
      var r := KeepAll(c, hits);
      if Accepts(prev, hits[n].0) {
        assert r == Taken(hits[n]);
        assert Accepts(c, hits[n].0);
        forall j | 0 <= j < n && Accepts(c, hits[j].0)
          ensures r.hitDist < hits[j].0.hitDist
        {
          assert prev.hitDist <= hits[j].0.hitDist;
        }
      } else {
        assert r == prev;
        if prev != c {
          var k :| 0 <= k < n && Accepts(c, init[k].0) && prev == Taken(init[k]) &&
                   forall j :: 0 <= j < k && Accepts(c, init[j].0) ==> prev.hitDist < init[j].0.hitDist;
          assert Accepts(c, hits[k].0) && r == Taken(hits[k]);
        }
      }
    }
  }

  /**
    Started, as `PerPixel` starts it, from `closestHitDist = DBL_MAX`, the
    search reports a hit (a distance other than `DBL_MAX`) exactly when some
    object's payload is nearer than `1e9`, and then the reported distance is
    the smallest of those.
   */
  lemma RayTraceFindsIffSomeNear(c: Closest, hits: seq<(HitPayload, SceneObject)>)
    requires c.hitDist == DBL_MAX
    ensures var r := KeepAll(c, hits);
      && (r.hitDist != DBL_MAX <==> exists k :: 0 <= k < |hits| && hits[k].0.hitDist < HIT_LIMIT)
      && (r.hitDist != DBL_MAX ==>
            && r.obj.Some?
            && (exists k :: 0 <= k < |hits| && r.hitDist == hits[k].0.hitDist && r.obj == Some(hits[k].1))
            && (forall k :: 0 <= k < |hits| && hits[k].0.hitDist < HIT_LIMIT ==> r.hitDist <= hits[k].0.hitDist))
  {
    KeepAllIsFirstNearest(c, hits);
  }

  /**
    What `RayTrace` computes, one object at a time in list order: the first
    exception leaves the loop, every payload before it goes through `Keep`.
   */
  function Trace(ray: Ray, objects: seq<SceneObject>, shapes: seq<Shape>, c: Closest): (r: Result<Closest>)
    requires Described(objects, shapes)
    ensures r.Ok? ==> r.value == c ||
                      (r.value.hitDist < c.hitDist && r.value.hitDist < HIT_LIMIT &&
                       r.value.obj.Some? && r.value.obj.value in objects)
    decreases |shapes|
  {
    if |shapes| == 0 then Ok(c)
    else
      var n := |shapes| - 1;
      var kept :- Trace(ray, objects[..n], shapes[..n], c);
      var payload :- Intersect(ray, shapes[n]);
      Ok(Keep(kept, payload, objects[n]))
  }

  /** The payloads of shapes none of which is a base object, paired with their objects. */
  function Hits(ray: Ray, objects: seq<SceneObject>, shapes: seq<Shape>): (r: seq<(HitPayload, SceneObject)>)
    requires Described(objects, shapes) && forall k :: 0 <= k < |shapes| ==> !shapes[k].BaseShape?
    ensures |r| == |shapes|
    ensures forall k :: 0 <= k < |shapes| ==> r[k] == (Intersect(ray, shapes[k]).value, objects[k])
  {
    seq(|shapes|, k requires 0 <= k < |shapes| => (Intersect(ray, shapes[k]).value, objects[k]))
  }

  /** The search raises exactly when the list holds a base object, with the exception of the first one. */
  lemma {:induction false} TraceThrowsAtFirstBase(ray: Ray, objects: seq<SceneObject>, shapes: seq<Shape>, c: Closest)
    requires Described(objects, shapes)
    ensures var r := Trace(ray, objects, shapes, c);
      && (r.Throw? <==> exists k :: 0 <= k < |shapes| && shapes[k].BaseShape?)
      && (r.Throw? ==> exists k :: 0 <= k < |shapes| && shapes[k].BaseShape? &&
                                   r.error == Intersect(ray, shapes[k]).error &&
                                   forall j :: 0 <= j < k ==> !shapes[j].BaseShape?)
  {
    hide Intersect, Keep;
    if |shapes| > 0 {
      var n := |shapes| - 1;
      TraceThrowsAtFirstBase(ray, objects[..n], shapes[..n], c);
      assert forall k :: 0 <= k < n ==> shapes[..n][k] == shapes[k];
    }
  }

  /** Without a base object the search keeps the payloads of all objects, in list order. */
  lemma {:induction false} TraceIsKeepAll(ray: Ray, objects: seq<SceneObject>, shapes: seq<Shape>, c: Closest)
    requires Described(objects, shapes) && forall k :: 0 <= k < |shapes| ==> !shapes[k].BaseShape?
    ensures Trace(ray, objects, shapes, c) == Ok(KeepAll(c, Hits(ray, objects, shapes)))
  {
    hide Intersect;
    if |shapes| > 0 {
      var n := |shapes| - 1;
      var os, ss := objects[..n], shapes[..n];
      assert forall k :: 0 <= k < n ==> ss[k] == shapes[k];
      TraceIsKeepAll(ray, os, ss, c);
      assert Hits(ray, objects, shapes)[..n] == Hits(ray, os, ss);
    }
  }

  /** Once the search has raised on a prefix of the list, the whole search raises the same exception. */
  lemma {:induction false} TraceThrowSticks(ray: Ray, objects: seq<SceneObject>, shapes: seq<Shape>, c: Closest,
                                            i: nat)
    requires Described(objects, shapes) && i <= |shapes|
    requires Trace(ray, objects[..i], shapes[..i], c).Throw?
    ensures Trace(ray, objects, shapes, c) == Trace(ray, objects[..i], shapes[..i], c)
    decreases |shapes|
  {
    hide Intersect;
    if i < |shapes| {
      var n := |shapes| - 1;
      assert objects[..n][..i] == objects[..i] && shapes[..n][..i] == shapes[..i];
      TraceThrowSticks(ray, objects[..n], shapes[..n], c, i);
    } else {
      assert objects[..i] == objects && shapes[..i] == shapes;
    }
  }

  /**
    `RayTrace`: intersects the ray with every object in list order and keeps
    the first strictly nearest acceptable payload in the reference parameters;
    returns whether `closestHitDist` is no longer `DBL_MAX`. Intersecting a
    base object raises `invalid_argument`, which leaves the function.
   */
  method RayTrace(ray: Ray, objects: seq<SceneObject>, closest: Closest) returns (found: bool, r: Result<Closest>)
    requires AllShapesReady(Shapes(objects))
    ensures r == Trace(ray, objects, old(Shapes(objects)), closest)
    ensures found <==> r.Ok? && r.value.hitDist != DBL_MAX
  {
    hide Intersect;
    ghost var shapes := Shapes(objects);
    var c := closest;
    var i := 0;
    while i < |objects|
      invariant 0 <= i <= |objects|
      invariant Trace(ray, objects[..i], shapes[..i], closest) == Ok(c)
    {
      var pObject := objects[i];
      assert ShapeOf(pObject) == shapes[i];
      var payload := RayIntersect(ray, pObject);
      assert objects[..i + 1][..i] == objects[..i] && shapes[..i + 1][..i] == shapes[..i];
      if payload.Throw? {
        TraceThrowSticks(ray, objects, shapes, closest, i + 1);
        return false, Throw(payload.error);
      }
      if payload.value.hitDist < c.hitDist && payload.value.hitDist < HIT_LIMIT {
        c := Closest(payload.value.u, payload.value.v, payload.value.hitDist, payload.value.hitNormal, Some(pObject));
      }
      i := i + 1;
    }
    assert objects[..i] == objects && shapes[..i] == shapes;
    found := c.hitDist != DBL_MAX;
    r := Ok(c);
  }

  // ---------------------------------------------------------------------
  // PerPixel: the bounce loop
  // ---------------------------------------------------------------------

  /** What a bounce adds: the sky colour on a miss, the hit colour, halved when the shadow ray is blocked. */
  function Contribution(hit: bool, shadowed: bool, hitColor: Vec3): Vec3
  {
    if !hit then SKY_COLOR else if shadowed then Scale(hitColor, 0.5) else hitColor
  }

  /** The running colour after a bounce: (colour + contribution) * 9. */
  function Accumulate(color: Vec3, contribution: Vec3): Vec3
  {
    Scale(Add(color, contribution), BOUNCE_GAIN)
  }

  /** A blocked shadow ray halves what a hit adds; a free one adds the full hit colour. */
  lemma ShadowHalvesContribution(hitColor: Vec3)
    ensures Contribution(true, true, hitColor) == Scale(Contribution(true, false, hitColor), 0.5)
    ensures Contribution(true, false, hitColor) == hitColor
    ensures forall s: bool :: Contribution(false, s, hitColor) == SKY_COLOR
  {
  }

  /** The state the loop carries from one bounce to the next: the ray, `pObject` and the colour. */
  datatype BounceState = BounceState(ray: Ray, pObject: Option<SceneObject>, color: Vec3)

  /** `pObject` is null or one of the scene's objects. */
  predicate KnownObject(objects: seq<SceneObject>, s: BounceState)
  {
    s.pObject.None? || s.pObject.value in objects
  }

  /** After a found search, the object comes from the list; otherwise the search changed nothing. */
  lemma FoundObjectIsListed(ray: Ray, objects: seq<SceneObject>, shapes: seq<Shape>, c: Closest)
    requires Described(objects, shapes)
    requires c.hitDist == DBL_MAX
    requires Trace(ray, objects, shapes, c).Ok?
    ensures var t := Trace(ray, objects, shapes, c).value;
            && (t.hitDist != DBL_MAX ==> t.obj.Some? && t.obj.value in objects)
            && (t.hitDist == DBL_MAX ==> t == c)
  {
    TraceThrowsAtFirstBase(ray, objects, shapes, c);
    TraceIsKeepAll(ray, objects, shapes, c);
    var hits := Hits(ray, objects, shapes);
    RayTraceFindsIffSomeNear(c, hits);
    KeepAllIsFirstNearest(c, hits);
  }

  /** The position of the first occurrence of `o` in the list. */
  function IndexOf(objects: seq<SceneObject>, o: SceneObject): (k: nat)
    requires o in objects
    ensures k < |objects| && objects[k] == o
    ensures forall j :: 0 <= j < k ==> objects[j] != o
  {
    if objects[0] == o then 0 else 1 + IndexOf(objects[1..], o)
  }

  /** The shape of a listed object. */
  function ShapeIn(objects: seq<SceneObject>, shapes: seq<Shape>, o: SceneObject): Shape
    requires |shapes| == |objects| && o in objects
  {
    shapes[IndexOf(objects, o)]
  }

  /**
    One bounce of `PerPixel`. The search starts afresh from `DBL_MAX`, keeping
    the previous `pObject`. On a hit, a shadow ray is cast from just off the
    surface towards the light; the hit colour is added (halved in shadow) and
    the ray is reflected from a point 0.001 off the surface. On a miss the sky
    colour is added. Either way the colour is then multiplied by 9.
   */
  function Bounce(objects: seq<SceneObject>, shapes: seq<Shape>, lightDirection: Vec3, intensity: real,
                  s: BounceState): (r: Result<BounceState>)
    requires Described(objects, shapes)
    ensures r.Ok? && KnownObject(objects, s) ==> KnownObject(objects, r.value)
  {
    var start := Closest(0.0, 0.0, DBL_MAX, Zero, s.pObject);
    var t :- Trace(s.ray, objects, shapes, start);
    FoundObjectIsListed(s.ray, objects, shapes, start);
    if t.hitDist != DBL_MAX then HitBounce(objects, shapes, lightDirection, intensity, s, t)
    else Ok(BounceState(s.ray, t.obj, Accumulate(s.color, Contribution(false, false, Zero))))
  }

  /** The point `offset` along the normal from where the ray meets the surface. */
  function OffSurface(ray: Ray, hitDist: real, hitNormal: Vec3, offset: real): Vec3
  {
    Add(Add(ray.start, ScaleLeft(hitDist, ray.direction)), Scale(hitNormal, offset))
  }

  /** The ray from 0.1 off the surface towards the light. */
  function ShadowRay(ray: Ray, t: Closest, lightDirection: Vec3): Ray
  {
    var newRayStart := OffSurface(ray, t.hitDist, t.hitNormal, 0.1);
    MakeRay(newRayStart, Sub(newRayStart, lightDirection))
  }

  /** A bounce that hit object `t.obj`: shade with its colour and albedo, test the shadow ray, reflect. */
  function HitBounce(objects: seq<SceneObject>, shapes: seq<Shape>, lightDirection: Vec3, intensity: real,
                     s: BounceState, t: Closest): (r: Result<BounceState>)
    requires Described(objects, shapes)
    requires t.obj.Some? && t.obj.value in objects
    ensures r.Ok? ==> KnownObject(objects, r.value)
  {
    var t2 :- Trace(ShadowRay(s.ray, t, lightDirection), objects, shapes, Closest(0.0, 0.0, DBL_MAX, Zero, None));
    var shape := ShapeIn(objects, shapes, t.obj.value);
    var hitColor := CalculateHitColor(shape.color, shape.albedo, intensity, t.hitNormal, lightDirection);
    var contribution := Contribution(true, t2.hitDist != DBL_MAX, hitColor);
    Ok(BounceState(Reflect(s.ray, t.hitNormal, OffSurface(s.ray, t.hitDist, t.hitNormal, 0.001)), t.obj,
                   Accumulate(s.color, contribution)))
  }

  /** `n` bounces in a row, stopping at the first exception. */
  function Bounces(objects: seq<SceneObject>, shapes: seq<Shape>, lightDirection: Vec3, intensity: real, n: nat,
                   s: BounceState): (r: Result<BounceState>)
    requires Described(objects, shapes)
    ensures r.Ok? && KnownObject(objects, s) ==> KnownObject(objects, r.value)
  {
    if n == 0 then Ok(s)
    else
      var prev :- Bounces(objects, shapes, lightDirection, intensity, n - 1, s);
      Bounce(objects, shapes, lightDirection, intensity, prev)
  }

  /** Once a bounce has raised, every later count of bounces raises the same exception. */
  lemma {:induction false} BouncesThrowSticks(objects: seq<SceneObject>, shapes: seq<Shape>, lightDirection: Vec3,
                                              intensity: real, i: nat, n: nat, s: BounceState)
    requires Described(objects, shapes) && i <= n
    requires Bounces(objects, shapes, lightDirection, intensity, i, s).Throw?
    ensures Bounces(objects, shapes, lightDirection, intensity, n, s) == Bounces(objects, shapes, lightDirection, intensity, i, s)
  {
    hide Bounce;
    if i < n {
      BouncesThrowSticks(objects, shapes, lightDirection, intensity, i, n - 1, s);
    }
  }

  /**
    What `PerPixel` returns, with the ray it leaves behind: the colour after
    `BOUNCES` bounces, divided by their gain g(`BOUNCES`).
   */
  function PixelColor(objects: seq<SceneObject>, shapes: seq<Shape>, lightDirection: Vec3, intensity: real,
                      ray: Ray): Result<(Vec3, Ray)>
    requires Described(objects, shapes)
  {
    var s :- Bounces(objects, shapes, lightDirection, intensity, BOUNCES, BounceState(ray, None, EMPTY_COLOR));
    Ok((Div(s.color, BOUNCES_GAIN), s.ray))
  }

  /** `PerPixel` as the source writes it: the colour after `BOUNCES` bounces, over 819. */
  function PixelColorAsWritten(objects: seq<SceneObject>, shapes: seq<Shape>, lightDirection: Vec3,
                               intensity: real, ray: Ray): Result<(Vec3, Ray)>
    requires Described(objects, shapes)
  {
    var s :- Bounces(objects, shapes, lightDirection, intensity, BOUNCES, BounceState(ray, None, EMPTY_COLOR));
    Ok((Div(s.color, PIXEL_DIVISOR), s.ray))
  }

  /** The colour gain of `n` bounces that all miss: g(0) = 0, g(n) = 9 (g(n - 1) + 1). */
  function MissGain(n: nat): (g: real)
    ensures 0.0 <= g
    ensures n > 0 ==> g >= BOUNCE_GAIN
  {
    if n == 0 then 0.0 else BOUNCE_GAIN * (MissGain(n - 1) + 1.0)
  }

  /**
    In a scene without objects every bounce misses, the ray never moves and
    the colour after `n` bounces is the sky colour times g(n).
   */
  lemma {:induction false} EmptySceneIsSky(lightDirection: Vec3, intensity: real, n: nat, ray: Ray)
    ensures Bounces([], [], lightDirection, intensity, n, BounceState(ray, None, EMPTY_COLOR))
            == Ok(BounceState(ray, None, Scale(SKY_COLOR, MissGain(n))))
  {
    hide HitBounce;
    if n > 0 {
      EmptySceneIsSky(lightDirection, intensity, n - 1, ray);
      var c := Scale(SKY_COLOR, MissGain(n - 1));
      assert Accumulate(c, SKY_COLOR) == Scale(SKY_COLOR, MissGain(n)) by {
        SkyGainStep(SKY_COLOR.x, MissGain(n - 1));
        SkyGainStep(SKY_COLOR.y, MissGain(n - 1));
        SkyGainStep(SKY_COLOR.z, MissGain(n - 1));
      }
    }
  }

  lemma SkyGainStep(s: real, g: real)
    ensures (s * g + s) * BOUNCE_GAIN == s * (BOUNCE_GAIN * (g + 1.0))
  {
  }

  /**
    The divisor 819 is 9 + 81 + 729, the gain of three missed bounces, so
    with three bounces an empty scene would come out exactly sky-coloured;
    with `BOUNCES` = 20 it comes out at g(20) / 819 times the sky colour.
   */
  lemma DivisorIsThreeBounceGain()
    ensures MissGain(3) == PIXEL_DIVISOR
    ensures MissGain(BOUNCES) > PIXEL_DIVISOR
  {
    MissGainGrows(BOUNCES);
  }

  lemma {:induction false} MissGainGrows(n: nat)
    requires n >= 4
    ensures MissGain(n) > PIXEL_DIVISOR
    ensures MissGain(n) > BOUNCE_GAIN * PIXEL_DIVISOR
  {
    if n > 4 {
      MissGainGrows(n - 1);
    }
  }

  /**
    As written, with the divisor 819, a pixel of an empty scene is g(20) / 819
    times the sky colour, so every channel of its RGB value is far beyond 255:
    out of the range of the `unsigned char` casts of `ConvertToInt32`.
   */
  lemma {:induction false} SkyPixelOverflowsAsWritten(lightDirection: Vec3, intensity: real, ray: Ray)
    ensures PixelColorAsWritten([], [], lightDirection, intensity, ray).Ok?
    ensures var rgb := ConvertToRGB(PixelColorAsWritten([], [], lightDirection, intensity, ray).value.0);
            !InByteRange(rgb.x) && !InByteRange(rgb.y) && !InByteRange(rgb.z)
  {
    hide Bounces, Bounce, MissGain;
    EmptySceneIsSky(lightDirection, intensity, BOUNCES, ray);
    MissGainGrows(BOUNCES);
    var g := MissGain(BOUNCES);
    var c := Div(Scale(SKY_COLOR, g), PIXEL_DIVISOR);
    assert PixelColorAsWritten([], [], lightDirection, intensity, ray) == Ok((c, ray));
    OverflowingChannel(SKY_COLOR.x, g);
    OverflowingChannel(SKY_COLOR.y, g);
    OverflowingChannel(SKY_COLOR.z, g);
  }

  /** A channel of at least 0.6, scaled by more than 9 * 819, divided by 819 and taken to RGB is at least 256. */
  lemma OverflowingChannel(s: real, g: real)
    requires s >= 0.6 && g > BOUNCE_GAIN * PIXEL_DIVISOR
    ensures (s * g) / PIXEL_DIVISOR * RGB_MAX >= 256.0
  {
    assert (s * g) / PIXEL_DIVISOR >= s * BOUNCE_GAIN;
  }

  /** The colours and albedos of the shapes lie in [0, 1] and [0, inf), as all of the source's do. */
  predicate MaterialsInRange(shapes: seq<Shape>)
  {
    forall k :: 0 <= k < |shapes| ==> ChannelsIn(shapes[k].color, 0.0, 1.0) && shapes[k].albedo >= 0.0
  }

  /** One bounce adds at most 1 per channel, then multiplies by 9: [0, g] becomes [0, 9 (g + 1)]. */
  lemma BounceWithinGain(objects: seq<SceneObject>, shapes: seq<Shape>, lightDirection: Vec3, intensity: real,
                         s: BounceState, g: real)
    requires Described(objects, shapes) && MaterialsInRange(shapes) && intensity >= 0.0
    requires ChannelsIn(s.color, 0.0, g)
    ensures var r := Bounce(objects, shapes, lightDirection, intensity, s);
            r.Ok? ==> ChannelsIn(r.value.color, 0.0, BOUNCE_GAIN * (g + 1.0))
  {
    var start := Closest(0.0, 0.0, DBL_MAX, Zero, s.pObject);
    var t := Trace(s.ray, objects, shapes, start);
    if t.Ok? {
      FoundObjectIsListed(s.ray, objects, shapes, start);
      if t.value.hitDist != DBL_MAX {
        var shape := ShapeIn(objects, shapes, t.value.obj.value);
        assert ChannelsIn(shape.color, 0.0, 1.0) && shape.albedo >= 0.0;
      }
    }
  }

  /** After `n` bounces from black the colour lies within [0, g(n)]. */
  lemma {:induction false} BouncesWithinGain(objects: seq<SceneObject>, shapes: seq<Shape>, lightDirection: Vec3,
                                             intensity: real, n: nat, ray: Ray)
    requires Described(objects, shapes) && MaterialsInRange(shapes) && intensity >= 0.0
    ensures var r := Bounces(objects, shapes, lightDirection, intensity, n, BounceState(ray, None, EMPTY_COLOR));
            r.Ok? ==> ChannelsIn(r.value.color, 0.0, MissGain(n))
  {
    hide Bounce, Trace;
    if n > 0 {
      BouncesWithinGain(objects, shapes, lightDirection, intensity, n - 1, ray);
      var prev := Bounces(objects, shapes, lightDirection, intensity, n - 1, BounceState(ray, None, EMPTY_COLOR));
      if prev.Ok? {
        BounceWithinGain(objects, shapes, lightDirection, intensity, prev.value, MissGain(n - 1));
      }
    }
  }

  /**
    With the divisor g(`BOUNCES`), every pixel of a scene whose materials and
    light are in range lies within [0, 1], so its RGB value lies within
    [0, `RGB_MAX`] and fits the casts of `ConvertToInt32`; and an empty scene
    comes out exactly sky-coloured.
   */
  lemma PixelWithinRange(objects: seq<SceneObject>, shapes: seq<Shape>, lightDirection: Vec3, intensity: real,
                         ray: Ray)
    requires Described(objects, shapes) && MaterialsInRange(shapes) && intensity >= 0.0
    ensures var r := PixelColor(objects, shapes, lightDirection, intensity, ray);
            r.Ok? ==> ChannelsIn(r.value.0, 0.0, 1.0) && ChannelsIn(ConvertToRGB(r.value.0), 0.0, RGB_MAX)
    ensures PixelColor([], [], lightDirection, intensity, ray) == Ok((SKY_COLOR, ray))
  {
    hide Bounces, Bounce, MissGain;
    BouncesWithinGain(objects, shapes, lightDirection, intensity, BOUNCES, ray);
    EmptySceneIsSky(lightDirection, intensity, BOUNCES, ray);
    var g := BOUNCES_GAIN;
    assert Div(Scale(SKY_COLOR, g), g) == SKY_COLOR;
    var r := PixelColor(objects, shapes, lightDirection, intensity, ray);
    if r.Ok? {
      var c := Bounces(objects, shapes, lightDirection, intensity, BOUNCES, BounceState(ray, None, EMPTY_COLOR)).value.color;
      assert r.value.0 == Div(c, g);
      FractionOfGain(c.x, g);
      FractionOfGain(c.y, g);
      FractionOfGain(c.z, g);
    }
  }

  /** A value within [0, g] divided by a positive g lies within [0, 1]. */
  lemma FractionOfGain(x: real, g: real)
    requires g > 0.0 && 0.0 <= x <= g
    ensures 0.0 <= x / g <= 1.0
  {
  }

  // ---------------------------------------------------------------------
  // The scene
  // ---------------------------------------------------------------------

  /**
    A `Scene`: the objects, the light, and the red, green and blue grids
    indexed [x][y] over a `width` x `height` screen.
   */
  class Scene {
    var objects: seq<SceneObject>
    var light: DistantLightSource
    const rColor: array2<real>
    const gColor: array2<real>
    const bColor: array2<real>
    const width: nat
    const height: nat

    /** The grids have the screen's size and are three distinct grids. */
    ghost predicate Valid()
      reads this
    {
      && rColor.Length0 == width && rColor.Length1 == height
      && gColor.Length0 == width && gColor.Length1 == height
      && bColor.Length0 == width && bColor.Length1 == height
      && rColor != gColor && gColor != bColor && rColor != bColor
    }

    /**
      The grids `Initialize` sets up: `width` x `height`, every channel of
      every pixel at `RGB_MAX`, so an unrendered screen is white.
     */
    constructor (objects': seq<SceneObject>, light': DistantLightSource, width': nat, height': nat)
      ensures Valid() && objects == objects' && light == light'
      ensures width == width' && height == height'
      ensures fresh(rColor) && fresh(gColor) && fresh(bColor)
      ensures forall x, y :: 0 <= x < width && 0 <= y < height ==>
        rColor[x, y] == RGB_MAX && gColor[x, y] == RGB_MAX && bColor[x, y] == RGB_MAX
      ensures GridsInByteRange()
    {
      objects := objects';
      light := light';
      width := width';
      height := height';
      rColor := new real[width', height']((x, y) => RGB_MAX);
      gColor := new real[width', height']((x, y) => RGB_MAX);
      bColor := new real[width', height']((x, y) => RGB_MAX);
    }

    /**
      `SetPixelColor`: writes the three channels of one pixel into slot
      [x][y] of the three grids; every other slot keeps its value.
     */
    method SetPixelColor(x: nat, y: nat, pixelColor: Vec3)
      requires Valid() && x < width && y < height
      modifies rColor, gColor, bColor
      ensures rColor[x, y] == pixelColor.x && gColor[x, y] == pixelColor.y && bColor[x, y] == pixelColor.z
      ensures forall i, j :: 0 <= i < width && 0 <= j < height && (i != x || j != y) ==>
        rColor[i, j] == old(rColor[i, j]) && gColor[i, j] == old(gColor[i, j]) && bColor[i, j] == old(bColor[i, j])
    {
      rColor[x, y] := pixelColor.At(0);
      gColor[x, y] := pixelColor.At(1);
      bColor[x, y] := pixelColor.At(2);
    }

    /** The word `Display` stores for pixel (x, y). */
    function PixelWord(x: nat, y: nat, bigEndian: bool): uint32
      reads this, rColor, gColor, bColor
      requires Valid() && x < width && y < height && GridsInByteRange()
    {
      ConvertToInt32(rColor[x, y], gColor[x, y], bColor[x, y], bigEndian)
    }

    /** Every grid value can be converted to a byte. */
    ghost predicate GridsInByteRange()
      reads this, rColor, gColor, bColor
      requires Valid()
    {
      forall i, j :: 0 <= i < width && 0 <= j < height ==>
        InByteRange(rColor[i, j]) && InByteRange(gColor[i, j]) && InByteRange(bColor[i, j])
    }

    /**
      The texture `Display` fills: column by column, pixel (x, y) goes to
      index (height - y - 1) * width + x, so every index receives the word of
      exactly the pixel `DisplayPixel` names.
     */
    method Display(bigEndian: bool) returns (pixelColors: array<uint32>)
      requires Valid() && GridsInByteRange()
      ensures pixelColors.Length == width * height
      ensures forall x, y :: 0 <= x < width && 0 <= y < height ==>
        pixelColors[DisplayIndex(x, y, width, height)] == PixelWord(x, y, bigEndian)
      ensures width > 0 ==> forall i :: 0 <= i < width * height ==>
        pixelColors[i] == PixelWord(DisplayPixel(i, width, height).0, DisplayPixel(i, width, height).1, bigEndian)
    {
      pixelColors := new uint32[width * height];
      var x := 0;
      while x < width
        invariant 0 <= x <= width
        invariant forall i, j :: 0 <= i < x && 0 <= j < height ==>
          pixelColors[DisplayIndex(i, j, width, height)] == PixelWord(i, j, bigEndian)
      {
        FillColumn(pixelColors, x, bigEndian);
        x := x + 1;
      }
      if width > 0 {
        forall i | 0 <= i < width * height
          ensures pixelColors[i] ==
                  PixelWord(DisplayPixel(i, width, height).0, DisplayPixel(i, width, height).1, bigEndian)
        {
          DisplayPixelRoundTrip(i, width, height);
        }
      }
    }

    /** The inner loop of `Display`: column x, every row, and no other pixel's slot. */
    method FillColumn(pixelColors: array<uint32>, x: nat, bigEndian: bool)
      requires Valid() && GridsInByteRange() && x < width && pixelColors.Length == width * height
      modifies pixelColors
      ensures forall j :: 0 <= j < height ==>
        pixelColors[DisplayIndex(x, j, width, height)] == PixelWord(x, j, bigEndian)
      ensures forall i, j :: 0 <= i < width && i != x && 0 <= j < height ==>
        pixelColors[DisplayIndex(i, j, width, height)] == old(pixelColors[DisplayIndex(i, j, width, height)])
    {
      // The words are placed, not inspected: the packing and its bytes play no part.
      hide ConvertToInt32, ByteAt, ToByte;
      var y := 0;
      while y < height
        invariant 0 <= y <= height
        invariant forall j :: 0 <= j < y ==>
          pixelColors[DisplayIndex(x, j, width, height)] == PixelWord(x, j, bigEndian)
        invariant forall i, j :: 0 <= i < width && i != x && 0 <= j < height ==>
          pixelColors[DisplayIndex(i, j, width, height)] == old(pixelColors[DisplayIndex(i, j, width, height)])
      {
        ghost var k := DisplayIndex(x, y, width, height);
        DisplayIndexInjective(x, y, width, height);
        DisplayIndexRoundTrip(x, y, width, height);
        pixelColors[((height - y - 1) * width) + x] :=
          ConvertToInt32(rColor[x, y], gColor[x, y], bColor[x, y], bigEndian);
        assert pixelColors[k] == PixelWord(x, y, bigEndian);
        y := y + 1;
      }
    }

    /**
      `PerPixel`: the bounce loop, `BOUNCES` times, then the division by their
      gain g(`BOUNCES`) where the source divides by 819 (see `PixelColorAsWritten`).
      The ray passed by reference ends as the last reflected ray.
     */
    method PerPixel(ray: Ray) returns (r: Result<(Vec3, Ray)>)
      requires AllShapesReady(Shapes(objects))
      ensures r == old(PixelColor(objects, Shapes(objects), light.direction, light.intensity, ray))
    {
      ghost var shapes := Shapes(objects);
      var last := BounceLoop(ray, objects, shapes, light.direction, light.intensity);
      if last.Throw? {
        return Throw(last.error);
      }
      var s := last.value;
      r := Ok((Div(s.color, BOUNCES_GAIN), s.ray));
    }

    /** The `BOUNCES` iterations of the bounce loop of `PerPixel`, from a fresh colour. */
    method BounceLoop(ray: Ray, ghost objs: seq<SceneObject>, ghost shapes: seq<Shape>,
                      ghost lightDirection: Vec3, ghost intensity: real)
      returns (r: Result<BounceState>)
      requires objs == objects && shapes == Shapes(objects) && AllShapesReady(shapes)
      requires lightDirection == light.direction && intensity == light.intensity
      ensures r == Bounces(objs, shapes, lightDirection, intensity, BOUNCES, BounceState(ray, None, EMPTY_COLOR))
    {
      // The loop needs only how `Bounces` recurses, not what one bounce does.
      hide Bounce;
      var s := BounceState(ray, None, EMPTY_COLOR);
      ghost var start := s;
      var i := 0;
      while i < BOUNCES
        invariant 0 <= i <= BOUNCES
        invariant Bounces(objs, shapes, lightDirection, intensity, i, start) == Ok(s)
      {
        var next := BounceOnce(s, objs, shapes, lightDirection, intensity, i, start);
        if next.Throw? {
          BouncesThrowSticks(objs, shapes, lightDirection, intensity, i + 1, BOUNCES, start);
          return next;
        }
        s := next.value;
        i := i + 1;
      }
      r := Ok(s);
    }

    /**
      The body of the bounce loop: after `i` bounces from `start` that ended
      in `s`, one more bounce.
     */
    method BounceOnce(s: BounceState, ghost objs: seq<SceneObject>, ghost shapes: seq<Shape>,
                      ghost lightDirection: Vec3, ghost intensity: real, ghost i: nat, ghost start: BounceState)
      returns (r: Result<BounceState>)
      requires objs == objects && shapes == Shapes(objects) && AllShapesReady(shapes)
      requires lightDirection == light.direction && intensity == light.intensity
      requires Bounces(objs, shapes, lightDirection, intensity, i, start) == Ok(s)
      ensures r == Bounces(objs, shapes, lightDirection, intensity, i + 1, start)
    {
      var noHit := Closest(0.0, 0.0, DBL_MAX, Zero, s.pObject);
      var found, t := RayTrace(s.ray, objects, noHit);
      assert Shapes(objects) == shapes;
      if t.Throw? {
        return Throw(t.error);
      }
      FoundObjectIsListed(s.ray, objects, shapes, noHit);
      if found {
        r := HitBounceOnce(s, t.value, shapes);
      } else {
        r := Ok(BounceState(s.ray, t.value.obj, Accumulate(s.color, SKY_COLOR)));
      }
    }

    /** The hit branch of the bounce loop: the shadow test, the shading and the reflection. */
    method HitBounceOnce(s: BounceState, hit: Closest, ghost shapes: seq<Shape>) returns (r: Result<BounceState>)
      requires shapes == Shapes(objects) && AllShapesReady(shapes) && hit.obj.Some? && hit.obj.value in objects
      ensures r == HitBounce(objects, shapes, light.direction, light.intensity, s, hit)
    {
      var rayStart := s.ray.start;
      var rayDir := s.ray.direction;
      var newRayStart := Add(Add(rayStart, ScaleLeft(hit.hitDist, rayDir)), Scale(hit.hitNormal, 0.1));
      var shadowRay := MakeRay(newRayStart, Sub(newRayStart, light.direction));
      var found2, t2 := RayTrace(shadowRay, objects, Closest(0.0, 0.0, DBL_MAX, Zero, None));
      if t2.Throw? {
        return Throw(t2.error);
      }
      var o := hit.obj.value;
      assert ShapeIn(objects, shapes, o) == ShapeOf(o);
      var hitColor := CalculateHitColor(GetColor(o), GetAlbedo(o), light.intensity, hit.hitNormal, light.direction);
      if found2 {
        hitColor := Scale(hitColor, 0.5);
      }
      var color := Accumulate(s.color, hitColor);
      rayStart := Add(Add(rayStart, ScaleLeft(hit.hitDist, rayDir)), Scale(hit.hitNormal, 0.001));
      r := Ok(BounceState(Reflect(s.ray, hit.hitNormal, rayStart), hit.obj, color));
    }
  }
}
