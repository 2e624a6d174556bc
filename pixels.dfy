/**
  The per-pixel colour arithmetic of scripts/RayTrace/Scene.cpp: the shading
  of a hit (`CalculateHitColor`), the scaling to 0..255 (`ConvertToRGB`), the
  packing into one 32-bit texture word (`ConvertToInt32`) and the index map
  `Display` uses to lay the pixel grid out row by row, bottom row first.
 */
module Pixels {
  import opened Vectors
  import opened Utils

  // ---------------------------------------------------------------------
  // Shading of a hit
  // ---------------------------------------------------------------------

  /** The diffuse light factor max(0, n . (-L)). */
  function LightFactor(hitNormal: Vec3, lightDirection: Vec3): (f: real)
    ensures f >= 0.0
    ensures f > 0.0 <==> Dot(hitNormal, Neg(lightDirection)) > 0.0
  {
    Max(0.0, Dot(hitNormal, Neg(lightDirection)))
  }

  /** The shaded colour before the clamp: colour * intensity * albedo / pi * light factor. */
  function Unclamped(color: Vec3, albedo: real, intensity: real, hitNormal: Vec3, lightDirection: Vec3): Vec3
  {
    Scale(Div(Scale(Scale(color, intensity), albedo), PI), LightFactor(hitNormal, lightDirection))
  }

  /**
    Each channel cut to at most 1 (`std::min(1., color[i])`): no channel rises,
    each either keeps its value or becomes 1, and a colour within 1 is unchanged.
   */
  function ClampChannels(c: Vec3): (r: Vec3)
    ensures r.x <= 1.0 && r.y <= 1.0 && r.z <= 1.0
    ensures r.x <= c.x && r.y <= c.y && r.z <= c.z
    ensures (r.x == c.x || r.x == 1.0) && (r.y == c.y || r.y == 1.0) && (r.z == c.z || r.z == 1.0)
    ensures c.x <= 1.0 && c.y <= 1.0 && c.z <= 1.0 ==> r == c
  {
    Vec3(Min(1.0, c.x), Min(1.0, c.y), Min(1.0, c.z))
  }

  /** All channels lie in [lo, hi]. */
  predicate ChannelsIn(c: Vec3, lo: real, hi: real)
  {
    lo <= c.x <= hi && lo <= c.y <= hi && lo <= c.z <= hi
  }

  /**
    `CalculateHitColor`: no channel exceeds 1; a surface facing away from the
    light is black; with a non-negative colour, albedo and intensity no
    channel is negative; and a colour already within 1 is left as shaded.
   */
  function CalculateHitColor(color: Vec3, albedo: real, intensity: real, hitNormal: Vec3,
                             lightDirection: Vec3): (r: Vec3)
    ensures r.x <= 1.0 && r.y <= 1.0 && r.z <= 1.0
    ensures Dot(hitNormal, Neg(lightDirection)) <= 0.0 ==> r == Zero
    ensures ChannelsIn(color, 0.0, 1.0) && albedo >= 0.0 && intensity >= 0.0 ==> ChannelsIn(r, 0.0, 1.0)
    ensures var c := Unclamped(color, albedo, intensity, hitNormal, lightDirection);
            c.x <= 1.0 && c.y <= 1.0 && c.z <= 1.0 ==> r == c
  {
    var c := Unclamped(color, albedo, intensity, hitNormal, lightDirection);
    ShadedIsNonNegative(color, albedo, intensity, LightFactor(hitNormal, lightDirection));
    ClampChannels(c)
  }

  /** A product of non-negative factors over the positive pi is non-negative. */
  lemma ShadedIsNonNegative(color: Vec3, albedo: real, intensity: real, f: real)
    requires f >= 0.0
    ensures ChannelsIn(color, 0.0, 1.0) && albedo >= 0.0 && intensity >= 0.0 ==>
            var c := Scale(Div(Scale(Scale(color, intensity), albedo), PI), f);
            c.x >= 0.0 && c.y >= 0.0 && c.z >= 0.0
  {
    if ChannelsIn(color, 0.0, 1.0) && albedo >= 0.0 && intensity >= 0.0 {
      NonNegativeShade(color.x, albedo, intensity, f);
      NonNegativeShade(color.y, albedo, intensity, f);
      NonNegativeShade(color.z, albedo, intensity, f);
    }
  }

  lemma NonNegativeShade(c: real, albedo: real, intensity: real, f: real)
    requires c >= 0.0 && albedo >= 0.0 && intensity >= 0.0 && f >= 0.0
    ensures c * intensity * albedo / PI * f >= 0.0
  {
    assert c * intensity >= 0.0;
    assert c * intensity * albedo >= 0.0;
    assert c * intensity * albedo / PI >= 0.0;
  }

  // ---------------------------------------------------------------------
  // RGB scaling and 32-bit packing
  // ---------------------------------------------------------------------

  /**
    `ConvertToRGB`: each channel times `RGB_MAX`; a colour with channels in
    [0, 1] lands in [0, 255], the range the byte conversion accepts.
   */
  function ConvertToRGB(color: Vec3): (r: Vec3)
    ensures forall i :: 0 <= i < DIMS_3D ==> r.At(i) == color.At(i) * RGB_MAX
    ensures ChannelsIn(color, 0.0, 1.0) ==> ChannelsIn(r, 0.0, RGB_MAX)
  {
    Vec3(color.At(0) * RGB_MAX, color.At(1) * RGB_MAX, color.At(2) * RGB_MAX)
  }

  /** A double the conversion to `unsigned char` is defined on. */
  predicate InByteRange(x: real)
  {
    0.0 <= x < 256.0
  }

  /** `unsigned char` */
  newtype byte = b: int | 0 <= b < 0x100

  /** `Uint32`, the texture's pixel word. */
  newtype uint32 = w: int | 0 <= w < 0x1_0000_0000

  /**
    `static_cast<unsigned char>`: truncation toward zero, which for the
    non-negative values the conversion is defined on is the floor.
   */
  function ToByte(x: real): (b: byte)
    requires InByteRange(x)
    ensures b as real <= x < b as real + 1.0
  {
    x.Floor as byte
  }

  /** 2^shift for the four byte positions of a word. */
  function ShiftFactor(shift: nat): (f: nat)
    requires shift == 0 || shift == 8 || shift == 16 || shift == 24
    ensures f > 0
  {
    if shift == 24 then 0x100_0000 else if shift == 16 then 0x1_0000 else if shift == 8 then 0x100 else 1
  }

  /**
    Four bytes side by side in one word, the first in bits 31-24:
    `(b3 << 24) + (b2 << 16) + (b1 << 8) + b0`, each shift a multiplication
    by a power of two.
   */
  function Pack(b3: byte, b2: byte, b1: byte, b0: byte): (r: uint32)
    ensures ByteAt(r, 24) == b3 && ByteAt(r, 16) == b2 && ByteAt(r, 8) == b1 && ByteAt(r, 0) == b0
  {
    BaseDigits(b3 as nat, b2 as nat, b1 as nat, b0 as nat);
    (b3 as int * 0x100_0000 + b2 as int * 0x1_0000 + b1 as int * 0x100 + b0 as int) as uint32
  }

  /** The byte in bits shift+7 .. shift of a word: `(c >> shift) & 0xFF`. */
  function ByteAt(c: uint32, shift: nat): byte
    requires shift == 0 || shift == 8 || shift == 16 || shift == 24
  {
    ((c as int / ShiftFactor(shift)) % 0x100) as byte
  }

  /** Shift-and-mask recovers every base-256 digit of a four-digit number. */
  lemma BaseDigits(w: nat, x: nat, y: nat, z: nat)
    requires w < 0x100 && x < 0x100 && y < 0x100 && z < 0x100
    ensures var c := w * 0x100_0000 + x * 0x1_0000 + y * 0x100 + z;
      && c < 0x1_0000_0000
      && (c / 0x100_0000) % 0x100 == w && (c / 0x1_0000) % 0x100 == x
      && (c / 0x100) % 0x100 == y && c % 0x100 == z
  {
    var c := w * 0x100_0000 + x * 0x1_0000 + y * 0x100 + z;
    // c read as base-256 digits: c = ((w * 256 + x) * 256 + y) * 256 + z
    var hi, q8 := w * 0x100 + x, (w * 0x100 + x) * 0x100 + y;
    assert c == w * 0x100_0000 + (x * 0x1_0000 + y * 0x100 + z);
    assert c == hi * 0x1_0000 + (y * 0x100 + z);
    assert c == q8 * 0x100 + z;
    RowColumn(w, x * 0x1_0000 + y * 0x100 + z, 0x100_0000);
    RowColumn(0, w, 0x100);
    RowColumn(hi, y * 0x100 + z, 0x1_0000);
    RowColumn(w, x, 0x100);
    RowColumn(q8, z, 0x100);
    RowColumn(hi, y, 0x100);
  }

  /**
    `ConvertToInt32`: on a little-endian machine alpha 0xFF goes in bits
    31-24 and red, green, blue below it; on a big-endian machine red, green,
    blue go in bits 31-8 and alpha in bits 7-0. Either way each channel comes
    back by shift and mask.
   */
  function ConvertToInt32(red: real, green: real, blue: real, bigEndian: bool): (c: uint32)
    requires InByteRange(red) && InByteRange(green) && InByteRange(blue)
    ensures !bigEndian ==> ByteAt(c, 24) == 0xFF && ByteAt(c, 16) == ToByte(red) &&
                           ByteAt(c, 8) == ToByte(green) && ByteAt(c, 0) == ToByte(blue)
    ensures bigEndian ==> ByteAt(c, 24) == ToByte(red) && ByteAt(c, 16) == ToByte(green) &&
                          ByteAt(c, 8) == ToByte(blue) && ByteAt(c, 0) == 0xFF
  {
    var r, g, b := ToByte(red), ToByte(green), ToByte(blue);
    if bigEndian then
      Pack(r, g, b, 0xFF)
    else
      Pack(0xFF, r, g, b)
  }

  /** Two colours pack to the same word only if their channels truncate to the same bytes. */
  lemma ConvertToInt32Injective(r1: real, g1: real, b1: real, r2: real, g2: real, b2: real, bigEndian: bool)
    requires InByteRange(r1) && InByteRange(g1) && InByteRange(b1)
    requires InByteRange(r2) && InByteRange(g2) && InByteRange(b2)
    requires ConvertToInt32(r1, g1, b1, bigEndian) == ConvertToInt32(r2, g2, b2, bigEndian)
    ensures ToByte(r1) == ToByte(r2) && ToByte(g1) == ToByte(g2) && ToByte(b1) == ToByte(b2)
  {
  }

  // ---------------------------------------------------------------------
  // The texture layout of Display
  // ---------------------------------------------------------------------

  /** Where `Display` stores pixel (x, y): row height - y - 1, column x, inside the texture. */
  function DisplayIndex(x: nat, y: nat, width: nat, height: nat): (k: nat)
    requires x < width && y < height
    ensures k < width * height
  {
    RowFits(height - y - 1, x, width, height);
    (height - y - 1) * width + x
  }

  lemma RowFits(row: nat, column: nat, width: nat, height: nat)
    requires row < height && column < width
    ensures row * width + column < width * height
  {
    assert (row + 1) * width <= height * width;
  }

  /** The pixel stored at texture index i: column i mod width, row height - 1 - i div width. */
  function DisplayPixel(i: nat, width: nat, height: nat): (p: (nat, nat))
    requires width > 0 && i < width * height
    ensures p.0 < width && p.1 < height
  {
    IndexRowBelowHeight(i, width, height);
    (i % width, height - 1 - i / width)
  }

  lemma IndexRowBelowHeight(i: nat, width: nat, height: nat)
    requires width > 0 && i < width * height
    ensures i / width < height
  {
  }

  /** The division by `width` of row * width + column gives back the row and the column. */
  lemma RowColumn(row: nat, column: nat, width: nat)
    requires column < width
    ensures (row * width + column) / width == row
    ensures (row * width + column) % width == column
  {
    var n := row * width + column;
    var q, r := n / width, n % width;
    assert (q - row) * width == column - r by {
      assert n == q * width + r;
      assert (q - row) * width == q * width - row * width;
    }
    if q - row >= 1 {
      MulAtLeast(q - row, width);
    } else if row - q >= 1 {
      MulAtLeast(row - q, width);
    }
  }

  lemma MulAtLeast(k: int, w: int)
    requires k >= 1 && w > 0
    ensures k * w >= w
  {
  }

  /**
    The layout is a bijection from [0, width) x [0, height) onto
    [0, width * height): every pixel is found again at its index, and every
    index holds exactly one pixel.
   */
  lemma DisplayIndexRoundTrip(x: nat, y: nat, width: nat, height: nat)
    requires x < width && y < height
    ensures DisplayPixel(DisplayIndex(x, y, width, height), width, height) == (x, y)
  {
    RowColumn(height - y - 1, x, width);
  }

  lemma DisplayPixelRoundTrip(i: nat, width: nat, height: nat)
    requires width > 0 && i < width * height
    ensures var (x, y) := DisplayPixel(i, width, height);
            DisplayIndex(x, y, width, height) == i
  {
    IndexRowBelowHeight(i, width, height);
  }

  /** Distinct pixels never share a texture index. */
  lemma DisplayIndexInjective(x: nat, y: nat, width: nat, height: nat)
    requires x < width && y < height
    ensures forall i, j :: 0 <= i < width && 0 <= j < height && (i, j) != (x, y) ==>
              DisplayIndex(i, j, width, height) != DisplayIndex(x, y, width, height)
  {
    forall i, j | 0 <= i < width && 0 <= j < height && (i, j) != (x, y)
      ensures DisplayIndex(i, j, width, height) != DisplayIndex(x, y, width, height)
    {
      DisplayIndexRoundTrip(i, j, width, height);
      DisplayIndexRoundTrip(x, y, width, height);
    }
  }

  /** Rows are flipped: pixel row 0 is the last texture row, pixel row height - 1 the first. */
  lemma DisplayFlipsRows(x: nat, width: nat, height: nat)
    requires x < width && height > 0
    ensures DisplayIndex(x, 0, width, height) == (height - 1) * width + x
    ensures DisplayIndex(x, height - 1, width, height) == x
  {
  }
}
