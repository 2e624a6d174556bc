# Chess-RayTracer core in Dafny

This project models the computational core of Chess-RayTracer, a small C++ ray
tracer that renders chess pieces, loaded from Wavefront OBJ files, on a
chessboard. It then proves properties of that model. The model follows the
`.cpp` bodies and the inline header code; doubles are `real`.

| module (file) | source it models |
|---|---|
| `Exceptions` (exceptions.dfy) | the `std::invalid_argument` / `std::out_of_range` exceptions, as a `Result` datatype |
| `Vectors` (vectors.dfy) | scripts/LinearAlgebra/Vector.h: `Vec3D` arithmetic, `dot`, `cross`, `==`, `normalize` |
| `Utils` (utils.dfy) | the constants of scripts/Utilities/Utils.h, plus `DBL_MAX`, `DBL_MIN` and `M_PI` |
| `Rays` (rays.dfy) | scripts/RayTrace/Ray.cpp: the ray constructor, Moller-Trumbore triangle test, reflection, and the closest-face selection |
| `Objects` (objects.dfy) | scripts/RayTrace/Objects.cpp: `Object`, `Triangle`, `TriangleMesh` (caches, `Fit1x1`), `DistantLightSource`, `GetType` |
| `Intersections` (intersections.dfy) | scripts/RayTrace/Ray.cpp: `RayTriangleMeshIntersect` and the type dispatch of `RayIntersect` |
| `Pdfs` (pdfs.dfy) | scripts/RayTrace/PDF.cpp: the cosine PDF frame, `Local`, `Value` |
| `Materials` (materials.dfy) | scripts/RayTrace/Material.cpp: the three `Scatter` rules, `ScatteringPDF`, Schlick's `Reflectance` |
| `Pixels` (pixels.dfy) | scripts/RayTrace/Scene.cpp: `CalculateHitColor`, `ConvertToRGB`, `ConvertToInt32`, the `Display` index map |
| `Scenes` (scenes.dfy) | scripts/RayTrace/Scene.cpp: `RayTrace`, `PerPixel`, `SetPixelColor`, `Display`, the scene grids |
| `Cameras` (cameras.dfy) | scripts/RayTrace/Camera.cpp: the camera, `CalculateParams`, `GetRay` |
| `BoundingBoxes` (boundingboxes.dfy) | scripts/RayTrace/BoundingBox.cpp: the 12-triangle box |
| `Chessboards` (chessboards.dfy) | scripts/RayTrace/Chessboard.cpp: the 130 board triangles and `GetObjectPointers` |
| `ObjLoader` (objloader.dfy) | scripts/ObjectLoader/ObjLoader.h: the OBJ line parser, `std::getline`, `std::stoi`, the winding flip |

Modelling conventions:

- **Values and objects.** `Vec3D` and `Vector<int, 3>` are the value datatypes `Vec3` and `Face`. `Ray`, `HitPayload` and `ScatterPayload` are values too, because the source copies them everywhere.
- **Classes.** `Object`, `Triangle`, `TriangleMesh`, `DistantLightSource`, `Camera`, `Scene`, `BoundingBox` and `Chessboard` are classes whose methods update their fields. A `std::shared_ptr<Object>` is the datatype `SceneObject` (`Base`, `Tri` or `Mesh`), which points at one of them.
- **Loops.** The source's loops are `while` loops proved against pure specification functions. For example, `RayTriangleMeshIntersect` is proved equal to `ClosestHit`, `RayTrace` to `Trace`, the bounce loop of `PerPixel` to `Bounces`, and `loadTriangleMeshObj` to `ParseObj`. The properties the source promises are then lemmas about those functions.
- **Exceptions.** Every `throw` is a `Throw(...)` result, and it propagates the way the exception would.
- **Norm.** The source's norm is `sqrt(dot(v, v))`, which has no exact counterpart over `real`. `Norm` is the largest absolute entry instead. No contract depends on which norm it is. They rely only on the laws every norm obeys (non-negative, zero exactly on the zero vector, |k v| = |k| |v|) and on `Normalize` being a rescaling by a positive factor that maps exactly the zero vector to zero.
- **Parameters.** Random draws, `GetRefracted`, `GetBoundingPoints`, the OBJ file's text and the `>>` vertex reader come in as parameters.

## Model

| member | source | states |
|---|---|---|
| Vectors.Vec3.Size | scripts/LinearAlgebra/Vector.h:269-272 | a vector's size is always 3 |
| Vectors.FromList | scripts/LinearAlgebra/Vector.h:60-66 | the initializer-list constructor succeeds exactly for a list of three entries, which it copies in order, so `operator[]` i (`Vec3.At`, Vector.h lines 107-115) reads back the i-th entry; otherwise it throws `invalid_argument` |
| Vectors.Add | scripts/LinearAlgebra/Vector.h:189-196 | entry i of a + b is a[i] + b[i] |
| Vectors.Sub | scripts/LinearAlgebra/Vector.h:198-205 | entry i of a - b is a[i] - b[i] |
| Vectors.Neg | scripts/LinearAlgebra/Vector.h:242-249 | entry i of -a is -a[i] |
| Vectors.Scale | scripts/LinearAlgebra/Vector.h:212-219 | entry i of v * k is v[i] * k |
| Vectors.Div | scripts/LinearAlgebra/Vector.h:221-228 | entry i of v / k multiplied back by k gives v[i] |
| Vectors.Mul | scripts/LinearAlgebra/Vector.h:207-210 | the vector product is component-wise |
| Vectors.Equals | scripts/LinearAlgebra/Vector.h:251-267 | `==` holds exactly when the vectors are equal, component by component |
| Vectors.Norm | scripts/LinearAlgebra/Vector.h:147-154 | the norm is non-negative and zero exactly on the zero vector |
| Vectors.Normalize | scripts/LinearAlgebra/Vector.h:156-169 | normalizing gives the zero vector exactly for the zero vector |
| Vectors.NormalizeFactor | scripts/LinearAlgebra/Vector.h:156-162 | the factor normalizing multiplies by is positive |
| Vectors.NormalizeIsPositiveScaling | scripts/LinearAlgebra/Vector.h:156-162 | normalizing is multiplication by that positive factor |
| Vectors.ScaleLeft | scripts/LinearAlgebra/Vector.h:230-233 | entry i of `item * v` is item times entry i of v, as for `v * item` |
| Vectors.DotSymmetric | scripts/LinearAlgebra/Vector.h:116-132 | `dot` is symmetric and is the sum of the component products |
| Vectors.DotScale | scripts/LinearAlgebra/Vector.h:116-132 | `dot` is linear in a scaled argument, on either side |
| Vectors.DotAddSub | scripts/LinearAlgebra/Vector.h:116-132 | `dot` distributes over `+` and `-` |
| Vectors.CrossOrthogonal | scripts/LinearAlgebra/Vector.h:134-145 | a x b is orthogonal to both a and b |
| Vectors.CrossAntiCommutative | scripts/LinearAlgebra/Vector.h:171-181 | a x b = -(b x a) |
| Vectors.TripleProduct | scripts/LinearAlgebra/Vector.h:171-181 | the scalar triple product is invariant under cyclic shifts and changes sign under a swap |
| Vectors.NormalizeKeepsDotSign | scripts/LinearAlgebra/Vector.h:164-169 | normalizing one side of a dot product keeps its sign, in particular orthogonality |
| Vectors.DotWithNormalized | scripts/LinearAlgebra/Vector.h:164-169 | normalizing the second argument scales the dot product by the positive factor |
| Vectors.NormScale | scripts/LinearAlgebra/Vector.h:147-154 | scaling by k multiplies the norm by abs(k) |
| Vectors.CrossOfCross | scripts/LinearAlgebra/Vector.h:134-145 | the vector triple product a x (b x c) = (a . c) b - (a . b) c |
| Vectors.CrossOfOrthogonal | scripts/LinearAlgebra/Vector.h:134-145 | two nonzero orthogonal vectors have a nonzero cross product |
| Vectors.DotSelfPositive | scripts/LinearAlgebra/Vector.h:116-132 | v . v is positive for every nonzero v |
| Vectors.AbsOfQuotient | scripts/RayTrace/Camera.cpp:52 | abs(h) = abs(a) abs(h / a), and both are positive for a nonzero h |
| Vectors.NormalizeIdempotent | scripts/LinearAlgebra/Vector.h:164-169 | a normalized nonzero vector has norm 1, and normalizing twice is normalizing once |
| Vectors.NormalizeScaleInvariant | scripts/LinearAlgebra/Vector.h:164-169 | normalizing ignores a positive rescaling of its argument |
| Rays.MakeRay | scripts/RayTrace/Ray.cpp:5-10 | a ray keeps its start and screen points, and its direction is the positive rescaling of screen - start; the direction is zero only when the two points coincide |
| Rays.RayTriangleIntersect | scripts/RayTrace/Ray.cpp:89-138 | a ray the test rejects (determinant below `PARALLEL_PRECISION`, u or v outside the triangle, negative distance) gets distance `DBL_MAX` and a zero normal, and a parallel one the default payload; an accepted ray gets exactly the Cramer-rule u, v and distance and the barycentric blend of the three normals; any distance other than `DBL_MAX` has 0 <= u <= 1, v >= 0, u + v <= 1 and is non-negative |
| Rays.HitLiesOnTriangle | scripts/RayTrace/Ray.cpp:93-109 | for a non-zero determinant, start + dist * direction is the point A + u AB + v AC: the u, v and distance the test computes solve the ray-plane system |
| Rays.CramerIdentity | scripts/RayTrace/Ray.cpp:93-109 | the three triple products the test computes satisfy Cramer's rule, component by component, scaled by the determinant |
| Rays.ParallelRayMisses | scripts/RayTrace/Ray.cpp:93-95 | a ray orthogonal to AB x AC has determinant 0 and never hits |
| Rays.FlatHitNormal | scripts/RayTrace/Ray.cpp:46-51 | with the face normal passed three times, a hit carries exactly that normal |
| Rays.BlendOfEqualNormals | scripts/RayTrace/Ray.cpp:110 | the barycentric weights sum to one |
| Rays.Reflect | scripts/RayTrace/Ray.cpp:24-30 | the reflected ray takes the `GetReflected` direction, restarts at `rayStart`, and has its screen point `DEFAULT_CAMERA_LENGTH` along the direction |
| Rays.MirrorDirection | scripts/RayTrace/Ray.cpp:141 | against a unit normal, d - 2(n . d)n has normal component -(n . d); a direction along the surface is unchanged |
| Rays.Reflected | scripts/RayTrace/Ray.cpp:140-144 | against a unit normal, the normalized mirror direction leaves the surface exactly when d went into it, and is along the surface exactly when d is |
| Rays.GetReflected | scripts/RayTrace/Ray.cpp:140-144 | the reflected direction of the ray leaves the surface exactly when the ray went into it |
| Rays.ReflectedNormalComponent | scripts/RayTrace/Ray.cpp:140-144 | against a unit normal, the reflected direction's normal component is the incoming one reversed, times a positive factor |
| Rays.MirrorOfReversedNormal | scripts/RayTrace/Ray.cpp:25 | a direction straight into the surface is mirrored onto the normal |
| Rays.MirrorIsInvolution | scripts/RayTrace/Ray.cpp:25 | mirroring twice in the same unit normal restores the direction |
| Rays.ClosestHit | scripts/RayTrace/Ray.cpp:81-83 | the kept payload is the default or one of the candidates, and is no farther than any of them |
| Rays.ClosestHitIsFirstNearest | scripts/RayTrace/Ray.cpp:81-83 | on ties the earliest nearest candidate is kept (strict `<`) |
| Rays.ClosestHitAllFarther | scripts/RayTrace/Ray.cpp:81-83 | when every candidate is beyond d, so is the kept payload |
| Rays.ClosestHitMissesIffNoHit | scripts/RayTrace/Ray.cpp:60-87 | nothing is hit exactly when no candidate is hit, and then the result is the default payload |
| Objects.Object.SetAlbedo | scripts/RayTrace/Objects.cpp:17-19 | sets the albedo and nothing else, so `GetAlbedo` (lines 9-11) then returns it |
| Objects.Object.SetColor | scripts/RayTrace/Objects.cpp:21-23 | sets the colour and nothing else, so `GetColor` (lines 13-15) then returns it |
| Objects.Triangle.constructor | scripts/RayTrace/Objects.cpp:32-41 | stores the corners; AB, BC, AC are the corner differences and the normal is normalize(AB x AC) (`Valid`); no material |
| Objects.MinCorner | scripts/RayTrace/Objects.cpp:72-76 | each coordinate of the corner is the smallest of the three points' and is one of them |
| Objects.MinCornerTranslates | scripts/RayTrace/Objects.cpp:77-80 | translating the three points translates their minimum corner |
| Objects.Triangle.SetCenter | scripts/RayTrace/Objects.cpp:71-81 | all three corners move by the same vector, the minimum corner lands on `point`, and the cached edges and normal stay correct |
| Objects.Triangle.SetColor | scripts/RayTrace/Objects.cpp:21-23 | the inherited setter sets the colour, so the triangle's `GetColor` (lines 13-15) then returns it |
| Objects.Triangle.SetMaterial | scripts/RayTrace/BoundingBox.cpp:33 | attaches the material |
| Objects.EdgeCache | scripts/RayTrace/Objects.cpp:205-217 | one edge pair per face, in face order, each (v[t1] - v[t0], v[t2] - v[t0]) |
| Objects.NormalCache | scripts/RayTrace/Objects.cpp:205-218 | one normal per face, in face order, each normalize(first edge x second edge) |
| Objects.MeshFaceMatchesTriangle | scripts/RayTrace/Objects.cpp:206-215 | a mesh face caches the same edges and normal as a `Triangle` built from its corners |
| Objects.TriangleMesh.constructor | scripts/RayTrace/Objects.cpp:117-125 | copies the vertex and face lists and leaves the caches consistent with them |
| Objects.TriangleMesh.UpdateEdgesAndNormals | scripts/RayTrace/Objects.cpp:202-220 | afterwards the caches hold one entry per face and agree with the faces; the vertices and faces are untouched; on consistent caches it changes nothing (idempotent) |
| Objects.TriangleMesh.Fit1x1 | scripts/RayTrace/Objects.cpp:171-200 | the vertices become `Fitted` of the old ones (corrected corner start, see Findings), the faces are kept, and the caches are recomputed |
| Objects.Corners | scripts/RayTrace/Objects.cpp:182-190 | the first loop computes the running per-axis minima and maxima |
| Objects.Fitted | scripts/RayTrace/Objects.cpp:193-198 | fitting keeps the number of vertices |
| Objects.MinCoordIsMinimum | scripts/RayTrace/Objects.cpp:183-185 | the running minimum is at most every coordinate and is one of them (or the start) |
| Objects.MaxCoordIsMaximum | scripts/RayTrace/Objects.cpp:187-189 | the running maximum is at least every coordinate and is one of them (or the start) |
| Objects.CornersAreAttained | scripts/RayTrace/Objects.cpp:182-190 | on a nonempty finite mesh, the minimum and maximum of each axis are attained by some vertex |
| Objects.FitStaysInBox | scripts/RayTrace/Objects.cpp:191-198 | with positive offsets, every fitted vertex lies in [0, xOffset] x [0, ...) x [0, zOffset] |
| Objects.FitSpansOffsets | scripts/RayTrace/Objects.cpp:191-198 | the smallest x, y and z become 0, and the largest x and z become `xOffset` and `zOffset` |
| Objects.FitVertexExtremes | scripts/RayTrace/Objects.cpp:194-196 | a vertex on the minimum corner's plane maps to 0, one at the far extent to the offset; y uses the x factor |
| Objects.FaceEdges | scripts/RayTrace/Objects.cpp:210-212 | the two edges carry the first vertex onto the second and onto the third |
| Objects.FaceNormal | scripts/RayTrace/Objects.cpp:214-215 | the face normal is perpendicular to both edges of the face |
| Objects.NormalPerpendicular | scripts/RayTrace/Objects.cpp:39-40 | normalize(a x b) is perpendicular to a and to b |
| Objects.FittedAsWritten | scripts/RayTrace/Objects.cpp:171-198 | the source's fit, whose x and z maxima start from `DBL_MIN`, keeps the number of vertices |
| Objects.Fit1x1AsWrittenMisses | scripts/RayTrace/Objects.cpp:177-181 | on a mesh at negative x and z the source's maximum stays `DBL_MIN` and no vertex reaches x = 1, while the corrected fit reaches it |
| Objects.GetType | scripts/RayTrace/Objects.cpp:25-27 | `BASE`, `TRIANGLE` and `TRIANGLE_MESH` exactly for base objects, triangles and meshes (the overrides at lines 67-69 and 147-149) |
| Objects.DistantLightSource.constructor | scripts/RayTrace/Objects.cpp:85-89 | the light starts with `LIGHT_COLOR`, normalize(`LIGHT_DIR`) and `LIGHT_INTENSITY` |
| Objects.DistantLightSource.SetColor | scripts/RayTrace/Objects.cpp:104-106 | sets the colour |
| Objects.DistantLightSource.SetDirection | scripts/RayTrace/Objects.cpp:108-110 | sets the direction as given, without normalizing |
| Objects.DistantLightSource.SetIntensity | scripts/RayTrace/Objects.cpp:112-114 | sets the intensity |
| Intersections.FacePayloads | scripts/RayTrace/Ray.cpp:70-80 | one payload per face, in face order, each the flat-normal triangle test of that face |
| Intersections.FacePayload | scripts/RayTrace/Ray.cpp:70-80 | a face hit carries the face's cached normal and a non-negative distance, and its point lies at barycentric (u, v) along the cached edges from the first corner |
| Intersections.MeshPayloads | scripts/RayTrace/Ray.cpp:63-80 | a mesh yields one payload per face |
| Intersections.RayTriangleMeshIntersect | scripts/RayTrace/Ray.cpp:60-87 | the loop returns `ClosestHit` of the faces' payloads |
| Intersections.MeshHitIsNearestFace | scripts/RayTrace/Ray.cpp:60-87 | the mesh test misses exactly when no face is hit, and then returns the default payload; otherwise it returns the payload of a face no face beats, carrying that face's normal |
| Intersections.ShapeOf | scripts/RayTrace/Ray.cpp:44-54 | the snapshot of an object keeps its kind, colour, albedo and whether its caches are sized |
| Intersections.Intersect | scripts/RayTrace/Ray.cpp:44-58 | the test throws exactly for a base object; a triangle hit carries the triangle's normal |
| Intersections.RayIntersect | scripts/RayTrace/Ray.cpp:44-58 | dispatch on `GetType`: throws `invalid_argument` exactly when the type is neither `TRIANGLE` nor `TRIANGLE_MESH`, otherwise the triangle or mesh test of the object's current state |
| Pdfs.Axis | scripts/RayTrace/PDF.cpp:9-11 | the third axis is the normalized hit normal |
| Pdfs.HelperAxis | scripts/RayTrace/PDF.cpp:6 | the helper is (0, 1, 0) when abs(n.x) > 0.9 and (1, 0, 0) otherwise |
| Pdfs.MakeCosinePdf | scripts/RayTrace/PDF.cpp:4-12 | the frame's third axis is the normalized normal, and the three axes are pairwise orthogonal |
| Pdfs.FrameIsOrthogonal | scripts/RayTrace/PDF.cpp:7-8 | v = normalize(n x a) and u = n x v are orthogonal to n and to each other |
| Pdfs.FrameIsNondegenerate | scripts/RayTrace/PDF.cpp:6-7 | for a nonzero normal the helper is never parallel to it, so v is not zero |
| Pdfs.Local | scripts/RayTrace/PDF.cpp:21-23 | `Local(a)` is a0 u + a1 v + a2 w, entry by entry |
| Pdfs.LocalMapsUnitVectorsToAxes | scripts/RayTrace/PDF.cpp:21-23 | the unit coordinate vectors map to u, v and w; (0, 0, 1) maps to the normal |
| Pdfs.Value | scripts/RayTrace/PDF.cpp:25-28 | the density is never negative, and is positive exactly on the normal's side |
| Pdfs.CosineDensitySign | scripts/RayTrace/PDF.cpp:27 | max(0, c / pi) is non-negative and positive exactly when c is |
| Materials.LambertianScatter | scripts/RayTrace/Material.cpp:4-9 | always scatters, with damping = albedo, `skipPDF` false and a cosine PDF around the normalized hit normal |
| Materials.MetalScatter | scripts/RayTrace/Material.cpp:24-34 | always scatters, with damping = albedo, `skipPDF` true and no PDF; the ray starts at the hit point along the normalized mirror direction plus fuzz times the random unit vector |
| Materials.MetalWithoutFuzzMirrors | scripts/RayTrace/Material.cpp:24-34 | with fuzz 0 the scattered ray goes exactly along the mirror direction |
| Materials.MetalHeadOnReturns | scripts/RayTrace/Material.cpp:24-34 | a head-on ray at a fuzz-free metal goes straight back along the normal |
| Materials.RelativeIndex | scripts/RayTrace/Material.cpp:57 | 1 / index on a front face, the index otherwise |
| Materials.CannotRefractIsSineTest | scripts/RayTrace/Material.cpp:61-63 | the square-root-free test agrees with `ri * sinTheta > 1` for the sine the source computes |
| Materials.CannotRefract | scripts/RayTrace/Material.cpp:61-63 | total internal reflection needs ri > 1 and a cosine below 1; an index of at most 1 always refracts |
| Materials.DielectricDirection | scripts/RayTrace/Material.cpp:63-68 | the direction is the reflected or the refracted one; total internal reflection reflects; a draw below r0 reflects whatever the angle |
| Materials.ReflectanceAtNormalIncidence | scripts/RayTrace/Material.cpp:75-79 | Reflectance(1, ri) = ((1 - ri) / (1 + ri))^2 exactly |
| Materials.Reflectance | scripts/RayTrace/Material.cpp:75-79 | for a cosine in [0, 1] and ri > 0, Schlick's reflectance is a probability no smaller than r0 = ((1 - ri) / (1 + ri))^2 |
| Materials.SchlickBounds | scripts/RayTrace/Material.cpp:75-79 | r0 + (1 - r0) x^5 lies in [r0, 1] for x in [0, 1] and a positive index |
| Materials.FollowUpRay | scripts/RayTrace/Material.cpp:71 | the follow-up ray starts at hitPoint + 0.001 direction and aims at hitPoint + direction |
| Materials.CosTheta | scripts/RayTrace/Material.cpp:59-60 | the cosine is clamped at 1, and otherwise is -unitDirection . normal |
| Materials.DielectricScatter | scripts/RayTrace/Material.cpp:51-73 | always scatters, with `skipPDF` true and no PDF; damping is the albedo exactly when depth == `BOUNCES`, the transparency otherwise; the ray is the follow-up ray along the chosen direction |
| Materials.TotalInternalReflection | scripts/RayTrace/Material.cpp:63-67 | when ri sin > 1 the dielectric reflects, whatever the draw |
| Materials.ReflectionBelowReflectance | scripts/RayTrace/Material.cpp:66-69 | otherwise it reflects exactly when the reflectance beats the draw, and a lower draw never turns a reflection into a refraction |
| Materials.Scatter | scripts/RayTrace/Material.h:18 | every material scatters; only a Lambertian uses a PDF; Lambertian and metal damp by their albedo |
| Materials.ScatteringPDF | scripts/RayTrace/Material.cpp:11-14 | the density is non-negative, 0 for non-Lambertian materials (the base class's `false`), and positive for a Lambertian exactly when the scattered direction is on the normal's side |
| Materials.LambertianSamplesItsOwnDensity | scripts/RayTrace/Material.cpp:4-14 | for a normalized normal, `ScatteringPDF` equals the `Value` of the PDF `Scatter` installs |
| Pixels.LightFactor | scripts/RayTrace/Scene.cpp:199-200 | max(0, n . (-L)) is non-negative and positive exactly when the surface faces the light |
| Pixels.CalculateHitColor | scripts/RayTrace/Scene.cpp:197-205 | no channel exceeds 1; a surface facing away from the light is black; non-negative inputs give channels in [0, 1]; a shade already within 1 is unchanged by the clamp |
| Pixels.ClampChannels | scripts/RayTrace/Scene.cpp:201-203 | no channel exceeds 1 or rises; each keeps its value or becomes 1; a colour within 1 is unchanged |
| Pixels.ShadedIsNonNegative | scripts/RayTrace/Scene.cpp:199-200 | the shade of a non-negative colour, albedo and intensity is non-negative |
| Pixels.ConvertToRGB | scripts/RayTrace/Scene.cpp:207-210 | each channel is multiplied by `RGB_MAX`, so [0, 1] maps into [0, 255] |
| Pixels.ToByte | scripts/RayTrace/Scene.cpp:79-81 | the `unsigned char` cast truncates: b <= x < b + 1 |
| Pixels.Pack | scripts/RayTrace/Scene.cpp:84-86 | shift-and-mask recovers each of the four packed bytes |
| Pixels.BaseDigits | scripts/RayTrace/Scene.cpp:84-86 | a four-digit base-256 number fits 32 bits and each digit is recovered by dividing and masking |
| Pixels.ConvertToInt32 | scripts/RayTrace/Scene.cpp:78-90 | little-endian: 0xFF in bits 31-24, then r, g, b; big-endian: r, g, b in bits 31-8 and 0xFF in bits 7-0 |
| Pixels.ConvertToInt32Injective | scripts/RayTrace/Scene.cpp:78-90 | two colours give the same word only if their channels truncate to the same bytes |
| Pixels.DisplayIndex | scripts/RayTrace/Scene.cpp:148 | (H - y - 1) W + x lies inside the W x H texture |
| Pixels.DisplayPixel | scripts/RayTrace/Scene.cpp:145-150 | the inverse map sends an index to a pixel inside the screen |
| Pixels.RowColumn | scripts/RayTrace/Scene.cpp:148 | dividing row W + column by W gives back the row and the column |
| Pixels.DisplayIndexRoundTrip | scripts/RayTrace/Scene.cpp:145-150 | every pixel is found again at its index |
| Pixels.DisplayPixelRoundTrip | scripts/RayTrace/Scene.cpp:145-150 | every index holds the pixel the inverse map names, so the layout is a bijection |
| Pixels.DisplayIndexInjective | scripts/RayTrace/Scene.cpp:146-149 | distinct pixels never share an index |
| Pixels.DisplayFlipsRows | scripts/RayTrace/Scene.cpp:148 | pixel row 0 is the last texture row and row H - 1 the first |
| Scenes.Shapes | scripts/RayTrace/Scene.cpp:220-221 | one snapshot per object of the list, in list order |
| Scenes.KeepAllIsFirstNearest | scripts/RayTrace/Scene.cpp:220-229 | either nothing was accepted and the reference parameters are untouched, or u, v, distance, normal and object all come from one accepted payload that no accepted payload beats, and every earlier accepted payload is strictly farther |
| Scenes.RayTraceFindsIffSomeNear | scripts/RayTrace/Scene.cpp:218-231 | from `DBL_MAX`, the search reports a hit exactly when some payload is nearer than 1e9; then the distance is the smallest such and the object is the one that produced it |
| Scenes.Hits | scripts/RayTrace/Scene.cpp:220-221 | without base objects, one (payload, object) pair per object, in list order |
| Scenes.TraceThrowsAtFirstBase | scripts/RayTrace/Scene.cpp:220-221 | the search throws exactly when the list holds a base object, with the first base object's exception |
| Scenes.TraceIsKeepAll | scripts/RayTrace/Scene.cpp:220-229 | without base objects the search sees every payload, in list order |
| Scenes.TraceThrowSticks | scripts/RayTrace/Scene.cpp:220-221 | an exception on a prefix of the list is the exception of the whole search |
| Scenes.Trace | scripts/RayTrace/Scene.cpp:218-231 | the search either leaves the reference parameters as they were, or reports a strictly nearer distance below 1e9 and one of the scene's objects |
| Scenes.RayTrace | scripts/RayTrace/Scene.cpp:218-231 | the loop computes `Trace`, and returns true exactly when it finished with a distance other than `DBL_MAX` |
| Scenes.ShadowHalvesContribution | scripts/RayTrace/Scene.cpp:176-187 | a shadowed hit adds exactly half the unshadowed hit colour; a miss adds (0.6, 0.7, 0.9) |
| Scenes.FoundObjectIsListed | scripts/RayTrace/Scene.cpp:222-230 | a reported object is one of the scene's objects; without a hit the search changed nothing |
| Scenes.Bounce | scripts/RayTrace/Scene.cpp:162-189 | a bounce keeps `pObject` null or one of the scene's objects |
| Scenes.HitBounce | scripts/RayTrace/Scene.cpp:164-184 | after a hit, `pObject` is one of the scene's objects |
| Scenes.BouncesThrowSticks | scripts/RayTrace/Scene.cpp:161-191 | once a bounce throws, every longer run throws the same exception |
| Scenes.Bounces | scripts/RayTrace/Scene.cpp:161-191 | every run of bounces keeps `pObject` null or one of the scene's objects |
| Scenes.MissGain | scripts/RayTrace/Scene.cpp:161-191 | the gain of n missed bounces is non-negative and at least 9 once n > 0 |
| Scenes.BounceWithinGain | scripts/RayTrace/Scene.cpp:162-189 | with colours in [0, 1], non-negative albedos and intensity, a bounce takes channels in [0, g] to [0, 9 (g + 1)] |
| Scenes.BouncesWithinGain | scripts/RayTrace/Scene.cpp:161-191 | after n bounces from black every channel lies in [0, g(n)] |
| Scenes.PixelWithinRange | scripts/RayTrace/Scene.cpp:158-195 | with the divisor g(`BOUNCES`), a pixel of a scene whose materials and light are in range lies in [0, 1], its RGB value in [0, 255], and an empty scene comes out exactly sky-coloured |
| Scenes.SkyPixelOverflowsAsWritten | scripts/RayTrace/Scene.cpp:189-192 | with the source's divisor 819, every RGB channel of an empty scene's pixel is at least 256, outside the casts of `ConvertToInt32` |
| Scenes.EmptySceneIsSky | scripts/RayTrace/Scene.cpp:161-191 | in an empty scene every bounce misses, the ray never moves, and the colour after n bounces is the sky colour times g(n), with g(n) = 9 (g(n - 1) + 1) |
| Scenes.DivisorIsThreeBounceGain | scripts/RayTrace/Scene.cpp:189-192 | 819 = 9 + 81 + 729 is the gain of three missed bounces, and the gain of `BOUNCES` = 20 exceeds it |
| Scenes.MissGainGrows | scripts/RayTrace/Scene.cpp:189-192 | from four bounces on, the gain exceeds 819 |
| Scenes.Scene.constructor | scripts/RayTrace/Scene.cpp:47-54 | the three grids are W x H, distinct, and hold `RGB_MAX` everywhere |
| Scenes.Scene.SetPixelColor | scripts/RayTrace/Scene.cpp:212-216 | writes the three channels into slot [x][y]; every other slot is unchanged |
| Scenes.Scene.Display | scripts/RayTrace/Scene.cpp:144-156 | the texture has W H words, and pixel (x, y)'s word sits at (H - y - 1) W + x, so each index holds the word of the pixel `DisplayPixel` names |
| Scenes.Scene.FillColumn | scripts/RayTrace/Scene.cpp:147-149 | the inner loop writes column x's words and no other column's |
| Scenes.Scene.PerPixel | scripts/RayTrace/Scene.cpp:158-195 | returns `PixelColor`: `BOUNCES` bounces, then division by their gain g(`BOUNCES`) where the source divides by 819 (see Findings), together with the last reflected ray |
| Scenes.Scene.BounceLoop | scripts/RayTrace/Scene.cpp:161-191 | the loop computes `Bounces` for `BOUNCES` iterations from black |
| Scenes.Scene.BounceOnce | scripts/RayTrace/Scene.cpp:162-190 | one iteration extends `Bounces` by one |
| Scenes.Scene.HitBounceOnce | scripts/RayTrace/Scene.cpp:164-184 | the hit branch computes `HitBounce`: shadow test, shading, reflection |
| Cameras.ScreenParams | scripts/RayTrace/Camera.cpp:38-55 | throws exactly when lookDir x up is zero; the centre is pos + lookDir lookLength; the lengths of U and V are in Cameras.ScreenBasisScale |
| Cameras.ScreenBasisScale | scripts/RayTrace/Camera.cpp:45-52 | U has norm abs(horizontalScale) and V norm abs(horizontalScale / aspectRatio), so norm(U) = abs(aspectRatio) norm(V); neither is zero for a nonzero scale |
| Cameras.ScreenUnitVectors | scripts/RayTrace/Camera.cpp:41-49 | the normalized right vector and the normalized U x lookDir both have norm 1 |
| Cameras.ScaledUnits | scripts/RayTrace/Camera.cpp:51-52 | unit vectors scaled by h and h / a have norms abs(h) and abs(h / a), nonzero for a nonzero h |
| Cameras.ScreenBasisOrthogonal | scripts/RayTrace/Camera.cpp:41-52 | U is orthogonal to lookDir, and V to both U and lookDir, after rescaling |
| Cameras.ScreenIsPerpendicular | scripts/RayTrace/Camera.cpp:54-58 | every screen point differs from the centre by a vector orthogonal to lookDir, and (0, 0) is the centre |
| Cameras.ScreenPoint | scripts/RayTrace/Camera.cpp:57-58 | the screen point lies x along U and y along V from the centre, and (0, 0) is the centre |
| Cameras.DefaultCameraIsValid | scripts/RayTrace/Camera.cpp:3-12 | the default camera does not throw |
| Cameras.UpAlongLookThrows | scripts/RayTrace/Camera.cpp:41-45 | an up vector along the look direction throws |
| Cameras.Camera.constructor | scripts/RayTrace/Camera.cpp:3-12 | loads the `DEFAULT_CAMERA_*` values and a basis computed from them |
| Cameras.Camera.SetPos | scripts/RayTrace/Camera.cpp:14-16 | changes only the position; the basis is not recomputed |
| Cameras.Camera.SetLookAt | scripts/RayTrace/Camera.cpp:18-20 | changes only the look-at point |
| Cameras.Camera.SetUp | scripts/RayTrace/Camera.cpp:22-24 | changes only the up vector |
| Cameras.Camera.SetLookLength | scripts/RayTrace/Camera.cpp:26-28 | changes only the look length |
| Cameras.Camera.SetAspectRatio | scripts/RayTrace/Camera.cpp:30-32 | changes only the aspect ratio |
| Cameras.Camera.SetHorizontalScale | scripts/RayTrace/Camera.cpp:34-36 | changes only the horizontal scale |
| Cameras.Camera.CalculateParams | scripts/RayTrace/Camera.cpp:38-55 | on success the basis is the one the inputs determine (orthogonal by Cameras.ScreenBasisOrthogonal, scaled by Cameras.ScreenBasisScale); on a degenerate up it throws after storing the zero `screenU_`, leaving V and the centre; the inputs never change |
| Cameras.Camera.GetRay | scripts/RayTrace/Camera.cpp:57-61 | the ray starts at the camera and passes through centre + U x + V y |
| Cameras.Camera.GetRayThroughScreen | scripts/RayTrace/Camera.cpp:57-61 | on a calculated camera, `GetRay(0, 0)` aims at the centre and every ray crosses the screen plane perpendicular to lookDir |
| BoundingBoxes.BoxTriangles | scripts/RayTrace/BoundingBox.cpp:19-30 | there are 12 box triangles |
| BoundingBoxes.CornerCoordinates | scripts/RayTrace/BoundingBox.cpp:11-18 | each coordinate of v0 .. v7 is the minimum's or the maximum's |
| BoundingBoxes.BoxVerticesAreCorners | scripts/RayTrace/BoundingBox.cpp:11-30 | every vertex of every box triangle takes each coordinate from the min or the max point |
| BoundingBoxes.BoxTrianglesInFacePlanes | scripts/RayTrace/BoundingBox.cpp:19-30 | every box triangle lies in one face plane of the box |
| BoundingBoxes.MinXFaceHalfCovered | scripts/RayTrace/BoundingBox.cpp:19-30 | five faces are covered over all four corners; the min-x face gets (v0, v7, v3) and (v0, v3, v7), one triangle in both windings, so corner v4 is missing there |
| BoundingBoxes.BoundingBox.constructor | scripts/RayTrace/BoundingBox.cpp:4-36 | the inside list is [pObject]; a triangle is its own box; anything else gets 12 new triangles in `BoxTriangles` order, all with the one `Lambertian(BASE_ALBEDO)` material |
| BoundingBoxes.BoundingBox.NewBoxTriangles | scripts/RayTrace/BoundingBox.cpp:19-30 | the 12 `make_shared<Triangle>` calls, in order, each new and consistent |
| BoundingBoxes.BoundingBox.GetBoundingBox | scripts/RayTrace/BoundingBox.cpp:38-40 | on a box the constructor built, the box list holds only triangles, and holds one entry exactly when the wrapped object is a triangle |
| BoundingBoxes.BoundingBox.GetObjectList | scripts/RayTrace/BoundingBox.cpp:42-44 | on a box the constructor built, the inside list holds exactly one object |
| Chessboards.Square | scripts/RayTrace/Chessboard.cpp:4-6 | grid position n < 128 names a square (i, j) of the 8 x 8 board and a half |
| Chessboards.SquareDecodes | scripts/RayTrace/Chessboard.cpp:4-29 | half h of square (i, j) is at position 16 i + 2 j + h: i outer, j inner, two per square |
| Chessboards.BoardColorsAlternate | scripts/RayTrace/Chessboard.cpp:19-25 | both triangles of a square share its colour, white exactly when i + j is odd |
| Chessboards.NeighbouringSquaresDiffer | scripts/RayTrace/Chessboard.cpp:19-25 | adjacent squares have different colours |
| Chessboards.SquareIsCovered | scripts/RayTrace/Chessboard.cpp:9-17 | a square's triangles lie in y = 0 within [i + b0, i + 1 + b0] x [j + b1, j + 1 + b1] and use its four corners |
| Chessboards.BoardIgnoresBottomLeftZ | scripts/RayTrace/Chessboard.cpp:9-16 | z is offset by bottomLeft[1]; bottomLeft[2] has no effect |
| Chessboards.SideTrianglesFixed | scripts/RayTrace/Chessboard.cpp:31-43 | the side triangles ignore `bottomLeft`, are black, and stand in z = 8 |
| Chessboards.NonNull | scripts/RayTrace/Chessboard.cpp:51-57 | the board's listing is the non-null cells of its row-major flattening, in that order |
| Chessboards.NonNullHoldsBoard | scripts/RayTrace/Chessboard.cpp:51-57 | every non-null cell's object is listed, and every listed object stands in some row |
| Chessboards.CellsOfRows | scripts/RayTrace/Chessboard.cpp:51-52 | the row-major flattening holds every cell of every row, and only those |
| Chessboards.NonNullRow | scripts/RayTrace/Chessboard.cpp:52-56 | the listed entries are non-null entries of the row, no more of them than the row has |
| Chessboards.NonNullRowKeepsAll | scripts/RayTrace/Chessboard.cpp:52-56 | one entry per non-null cell (the row's length less its nulls), and every non-null cell's object is kept |
| Chessboards.NonNullRowAppend | scripts/RayTrace/Chessboard.cpp:51-57 | listing two pieces one after the other lists the first piece's entries, then the second's, in order |
| Chessboards.NewSquareTriangle | scripts/RayTrace/Chessboard.cpp:9-25 | a new triangle with the corners and colour the layout puts at 16 i + 2 j + h |
| Chessboards.NewSideTriangle | scripts/RayTrace/Chessboard.cpp:31-43 | a new side triangle with the layout's corners and black colour |
| Chessboards.Chessboard.constructor | scripts/RayTrace/Chessboard.cpp:3-44 | exactly 130 new triangles, each with its layout corners and parity colour; `board_` stays empty |
| Chessboards.Chessboard.NewTriangleGrid | scripts/RayTrace/Chessboard.cpp:3-44 | the 128 square triangles, then the 2 side triangles |
| Chessboards.Chessboard.NewSquares | scripts/RayTrace/Chessboard.cpp:4-30 | the nested loops create 128 new triangles matching the layout |
| Chessboards.Chessboard.NewSquareRow | scripts/RayTrace/Chessboard.cpp:5-29 | one outer pass appends 16 triangles, keeps the earlier ones, and builds a row of 8 nulls |
| Chessboards.Chessboard.AppendSquare | scripts/RayTrace/Chessboard.cpp:6-28 | the inner body appends square (i, j)'s two new triangles |
| Chessboards.Chessboard.AppendNonNull | scripts/RayTrace/Chessboard.cpp:52-56 | the inner loop appends the row's non-null entries in order |
| Chessboards.Chessboard.GetObjectPointers | scripts/RayTrace/Chessboard.cpp:46-60 | the grid triangles in order, then the board's non-null pieces; as the board is empty, exactly the triangles |
| ObjLoader.IndexOf | scripts/ObjectLoader/ObjLoader.h:39 | the first occurrence of the delimiter, or the end |
| ObjLoader.Split | scripts/ObjectLoader/ObjLoader.h:48 | repeated `getline` reads no piece from an empty stream and at least one from a nonempty one |
| ObjLoader.SplitPieces | scripts/ObjectLoader/ObjLoader.h:48 | no piece contains the delimiter |
| ObjLoader.SplitJoin | scripts/ObjectLoader/ObjLoader.h:48 | joining the pieces with the delimiter gives back the text, less a final delimiter |
| ObjLoader.StoI | scripts/ObjectLoader/ObjLoader.h:51 | `stoi` yields an `int` in range, or throws `invalid_argument` or `out_of_range` |
| ObjLoader.StoIDecimal | scripts/ObjectLoader/ObjLoader.h:51 | `stoi` reads back the decimal writing of every `int`, and rejects a larger one as out of range |
| ObjLoader.StoINegativeDecimal | scripts/ObjectLoader/ObjLoader.h:51 | with a minus sign it reads back every value down to `INT_MIN` |
| ObjLoader.LineKind | scripts/ObjectLoader/ObjLoader.h:37-39 | the first token is a prefix of the line without a blank |
| ObjLoader.LineRest | scripts/ObjectLoader/ObjLoader.h:36-39 | the tokens of a line are its first token followed by the tokens of the rest |
| ObjLoader.FaceIndex | scripts/ObjectLoader/ObjLoader.h:49-51 | a token names `stoi` of its text before the first `/`, minus 1, or throws what `stoi` throws |
| ObjLoader.FaceIndexOfDecimal | scripts/ObjectLoader/ObjLoader.h:49-51 | tokens `n/...` and `n` both name the 0-based vertex n - 1 |
| ObjLoader.FaceIndices | scripts/ObjectLoader/ObjLoader.h:48-53 | successful reading gives one index per token |
| ObjLoader.FaceIndicesPrefixThrows | scripts/ObjectLoader/ObjLoader.h:48-53 | a token that throws ends the reading with its exception |
| ObjLoader.FaceIndicesAgree | scripts/ObjectLoader/ObjLoader.h:48-53 | the k-th index is the k-th token's |
| ObjLoader.FaceRecordIndices | scripts/ObjectLoader/ObjLoader.h:44-59 | a face has exactly three tokens, with their indices in order; a readable face of another size throws `invalid_argument` |
| ObjLoader.FaceRecord | scripts/ObjectLoader/ObjLoader.h:44-59 | a token `stoi` rejects throws its exception; readable tokens other than three throw `invalid_argument`; the record succeeds exactly for three readable tokens |
| ObjLoader.ParseLine | scripts/ObjectLoader/ObjLoader.h:36-60 | `v` appends the vertex read from the rest; `f` appends the face or throws its exception; any other line changes nothing |
| ObjLoader.ParseLinesPrefixThrows | scripts/ObjectLoader/ObjLoader.h:35-61 | the first line that throws ends the load with its exception |
| ObjLoader.ParseLines | scripts/ObjectLoader/ObjLoader.h:35-61 | each line adds at most one vertex or one triangle |
| ObjLoader.ParseObj | scripts/ObjectLoader/ObjLoader.h:25-61 | a file that loads has exactly one vertex per `v` line and one triangle per `f` line, and an empty file loads as an empty mesh |
| ObjLoader.OtherLinesIgnored | scripts/ObjectLoader/ObjLoader.h:35-60 | dropping every line that is neither `v` nor `f` gives the same load |
| ObjLoader.VerticesInFileOrder | scripts/ObjectLoader/ObjLoader.h:40-43 | one vertex per `v` line, in file order |
| ObjLoader.TrianglesInFileOrder | scripts/ObjectLoader/ObjLoader.h:56-59 | one triangle per `f` line, in file order, each that line's three indices |
| ObjLoader.NonTriangleThrows | scripts/ObjectLoader/ObjLoader.h:54-55 | a readable `f` line without exactly three indices makes the load throw `invalid_argument`, unless an earlier line threw |
| ObjLoader.FlipAll | scripts/ObjectLoader/ObjLoader.h:62-69 | every triangle is flipped, in place and in order |
| ObjLoader.Flip | scripts/ObjectLoader/ObjLoader.h:63-68 | flipping undoes itself and keeps every index in range exactly when it was |
| ObjLoader.FlipVertices | scripts/ObjectLoader/ObjLoader.h:62-69 | the in-place swap loop computes `FlipAll` |
| ObjLoader.FlipTwice | scripts/ObjectLoader/ObjLoader.h:62-69 | flipping swaps the first two indices, keeps the third, and flipping twice restores the list |
| ObjLoader.FlipKeepsIndices | scripts/ObjectLoader/ObjLoader.h:62-69 | flipped indices are valid exactly when the originals are |
| ObjLoader.FlipReversesNormal | scripts/ObjectLoader/ObjLoader.h:62-69 | a flipped triangle's normal is the opposite vector |
| ObjLoader.ReadFaceIndices | scripts/ObjectLoader/ObjLoader.h:48-53 | the token loop computes `FaceIndices` |
| ObjLoader.ReadFace | scripts/ObjectLoader/ObjLoader.h:45-59 | the `f` branch computes the face record |
| ObjLoader.LoadTriangleMeshObj | scripts/ObjectLoader/ObjLoader.h:25-73 | throws the first failing line's exception, or returns a new mesh of exactly the parsed vertices and (flipped when asked) triangles, with consistent caches |

## Left out

- Presentation and I/O. SDL texture, surface and renderer calls, `Scene::Initialize`'s texture setup, `Scene::Render` and `App`/`Log` are not modelled. `Display` returns the word array it would upload.
- Threads. The per-row `std::thread` rendering under `__MT__` is concurrency and is not modelled; the sequential per-pixel body is.
- Randomness and trigonometry. `Rand::RandomDouble` and `Rand::RandomUnitVector` draws are parameters. `CosinePDF::RandomCosineDirection` and `Generate` are not modelled (random draws with `cos`, `sin` and `sqrt`).
- Floating point. Doubles are exact reals: there is no rounding, no NaN and no infinity. `sqrt` in `getNorm` is replaced by the max-abs norm, and `pow(x, 5)` is written as a product.
- Vectors.Normalize: the zero vector normalizes to itself, where the source produces NaNs. Norm-1 results hold only for the max-abs norm.
- Vectors.Div: a zero divisor, an IEEE infinity in the source, is excluded by its precondition.
- Vector loops over the fixed three entries are written out component by component. The in-place `normalize()` is modelled by the value it leaves in the receiver.
- `GetRefracted`, `GetBoundingPoints`, `GetVertexNormals` and `SetMaterial` have no bodies in the source. The refracted direction and the bounding points are parameters, and `SetMaterial` is a plain setter.
- Smoothing. The `__SMOOTHING__` branch of `RayTriangleMeshIntersect` reads `vertexNormals_`, which nothing fills, so it reads out of range. The flat-normal branch is modelled instead.
- `HitPayload` fields the intersection never sets (`u`, `v` on an early return, `hitPoint`, `frontFace`, `pObject`) are zero or `false` in the model.
- `TriangleMesh::SetCenter` reads the uninitialised `minY`, which is undefined behaviour. It is not modelled.
- The `Scene()` constructor assembles a fixed scene from OBJ files and the chessboard. It is not modelled. The `Scene` constructor here takes the object list and the light, and sets up the grids as `Initialize` does.
- Scenes.RayTrace, Scenes.Scene.PerPixel and Scenes.Scene.BounceLoop require every mesh's caches to be sized to its faces. A mesh always has sized caches after its constructor, `Fit1x1` or `updateEdgesAndNormals`.
- Objects.TriangleMesh.Fit1x1 requires non-zero x and z extents, where the source would divide by zero. It, Objects.Corners and Objects.Fitted model the corrected start of the maxima (see Findings); Objects.FittedAsWritten keeps the source's start.
- Objects.Object.constructor: the source assigns `Utils::BASE_COLOR`, which the constants header does not define, and the vector `BASE_ALBEDO` to a double. The model leaves both fields unspecified.
- Rays.RayTriangleIntersect: an accepted ray whose distance is exactly `DBL_MAX` is indistinguishable from a miss, as in the source; its normal is then the blend, not zero, so a zero normal is promised only for the rejected rays.
- Scenes.Scene.Display, Scenes.Scene.FillColumn, Scenes.Scene.PixelWord and Pixels.ConvertToInt32 require every channel in [0, 256), where the source's `static_cast<unsigned char>` of a larger double is undefined behaviour. With the source's divisor 819 the rendered grids are far outside that range (see Findings); with g(`BOUNCES`) every channel is inside it (Scenes.PixelWithinRange).
- Pixels.ConvertToInt32: `255 << 24` and `r << 24` in the source shift a promoted `int`. For a byte of 128 or more the result is the unsigned value converted to `int`. On a two's-complement target that `int` has the same bits as the model's unsigned 32-bit word. The model packs into an unsigned word so that it needs no such conversion.
- Cameras.ScreenParams and Cameras.Camera.CalculateParams require a non-zero aspect ratio, where the source would divide by zero.
- Materials.RelativeIndex, Materials.Reflectance, Materials.DielectricScatter and Materials.Scatter require a refraction index other than 0 and -1. There the source divides by zero (scripts/RayTrace/Material.cpp lines 57 and 76) and goes on with an infinity or a NaN.
- Scenes.Scene.PerPixel divides the accumulated colour by the gain g(`BOUNCES`), where the source divides by 819. Findings has the row and the as-written member, Scenes.PixelColorAsWritten.
- ObjLoader: opening the file (`runtime_error`) is not modelled; the loader is given the file's text. Reading the vertex numbers with `>>` is the parameter `readVertex`.
- ObjLoader.StoI models base-10 `stoi` in the C locale. It does not model other bases, locales, or `errno`.
- ObjLoader.FaceIndex computes `stoi(...) - 1` over unbounded integers, so `INT_MIN - 1` is not wrapped.
- ObjLoader.LoadTriangleMeshObj requires every face index to name a vertex (`IndicesInRange`). The loader does not check this, and a mesh built otherwise reads outside its vertex list.
- BoundingBoxes.BoundingBox.constructor builds the 12 triangles from a corner-index table in a loop rather than as 12 statements. `GetBoundingBox` and `GetObjectList` return the two lists unchanged; their contracts hold for a box in the shape the constructor leaves (`Shaped`).
- The `Chessboard` constructor's nested loops are split into helper methods, one per loop level. `GetObjectPointers` cannot return a null entry, because `SceneObject` has no null value.
- The `Config.h` / `MaterialConfig.h` tables (piece placement and materials) are scene data. They are not modelled.

## Findings

| source | as written | input that shows it | evidently intended | confidence | as-written member | corrected member |
|---|---|---|---|---|---|---|
| scripts/RayTrace/Objects.cpp:177-181 | `topRightCorner`'s x and z start at `std::numeric_limits<double>::min()`, the smallest positive double | a mesh with vertices (-2, 0, -2) and (-1, 0, -1) fitted to 1 x 1: the x maximum stays `DBL_MIN`, the extent is 2 + `DBL_MIN`, and no vertex reaches x = 1 | start from `lowest()`, the most negative double, so the maximum is the mesh's own and the fit spans [0, xOffset] x [0, zOffset] | high (not executed) | Objects.Fit1x1AsWrittenMisses | Objects.FitSpansOffsets |
| scripts/RayTrace/Scene.cpp:189-192 | each of the 20 bounces multiplies the running colour by 9, and the result is divided by 819 = 9 + 81 + 729, the gain of three bounces | an empty scene: the colour after 20 bounces is g(20) (0.6, 0.7, 0.9) with g(20) about 1.4e19, so the pixel is about 1.7e16 times the sky colour and its RGB channels, far beyond 255, reach `static_cast<unsigned char>` | divide by the gain g(`BOUNCES`) of `BOUNCES` missed bounces, so a pixel stays in [0, 1] and its RGB value in [0, 255] | high (not executed) | Scenes.SkyPixelOverflowsAsWritten | Scenes.PixelWithinRange |
