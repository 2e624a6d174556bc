/**
  The constants of scripts/Utilities/Utils.h that the core reads, together with
  the C library limits and `M_PI` it uses, written as exact reals.
 */
module Utils {
  import opened Vectors

  /** Amount of ray bounces in the scene (`BOUNCES`). */
  const BOUNCES: int := 20

  /** Ray-parallel detection precision (`PARALLEL_PRECISION = 1e-3`). */
  const PARALLEL_PRECISION: real := 0.001

  /** `DBL_MAX`, the largest finite double, (2^53 - 1) * 2^971: the "no hit" distance. */
  const DBL_MAX: real := 179769313486231570814527423731704356798070567525844996598917476803157260780028538760589558632766878171540458953514382464234321326889464182768467546703537516986049910576551282076245490090389328944075868508455133942304583236903222948165808559332123348274797826204144723168738177180919299881250404026184124858368.0

  /** `std::numeric_limits<double>::min()`: the smallest POSITIVE normal double, 2^-1022. */
  const DBL_MIN: real := 1.0 / 44942328371557897693232629769725618340449424473557664318357520289433168951375240783177119330601884005280028469967848339414697442203604155623211857659868531094441973356216371319075554900311523529863270738021251442209537670585615720368478277635206809290837627671146574559986811484619929076208839082406056034304.0

  /** `M_PI` to double precision. */
  const PI: real := 3.141592653589793

  /** Largest value of an RGB channel (`RGB_MAX`). */
  const RGB_MAX: real := 255.0

  /** Light source defaults (`LIGHT_INTENSITY`, `LIGHT_COLOR`, `LIGHT_DIR`). */
  const LIGHT_INTENSITY: real := 15.0
  const LIGHT_COLOR: Vec3 := Vec3(1.0, 1.0, 1.0)
  const LIGHT_DIR: Vec3 := Vec3(-1.0, -1.0, -1.0)

  /** Camera defaults (`DEFAULT_CAMERA_*`). */
  const DEFAULT_CAMERA_POS: Vec3 := Vec3(8.0, 8.0, 16.0)
  const DEFAULT_CAMERA_LOOKAT: Vec3 := Vec3(4.0, 0.0, 4.0)
  const DEFAULT_CAMERA_UP: Vec3 := Vec3(0.0, 1.0, 0.0)
  const DEFAULT_CAMERA_LENGTH: real := 1.0
  const DEFAULT_CAMERA_ASPECT: real := 16.0 / 9.0
  const DEFAULT_CAMERA_HORSCALE: real := 1.0

  /** Object defaults (`BASE_ALBEDO`, `BASE_REFRACTION_INDEX`, `BASE_TRANSPARENCY`). */
  const BASE_ALBEDO: Vec3 := Vec3(0.7, 0.7, 0.7)
  const BASE_REFRACTION_INDEX: real := 1.5
  const BASE_TRANSPARENCY: Vec3 := Vec3(1.0, 1.0, 1.0)

  /** Board colours (`WHITE_BOARD_COLOR`, `BLACK_BOARD_COLOR`). */
  const WHITE_BOARD_COLOR: Vec3 := Vec3(1.0, 0.8, 0.65)
  const BLACK_BOARD_COLOR: Vec3 := Vec3(0.5, 0.2, 0.2)

  /** No energy, black (`EMPTY_COLOR`). */
  const EMPTY_COLOR: Vec3 := Vec3(0.0, 0.0, 0.0)
}
