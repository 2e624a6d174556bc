/**
  `Vector<double, 3>` (`Vec3D`) and `Vector<int, 3>` of scripts/LinearAlgebra/Vector.h.

  A vector is a value: every operator builds a fresh result, and the in-place
  `normalize()` of the source is the assignment `v := Normalize(v)`.
  Doubles are modelled as `real`.
 */
module Vectors {
  import opened Exceptions

  /** The dimension of every vector of the core (`DIMS_3D`). */
  const DIMS_3D: nat := 3

  /** Three real entries, `entries[0..2]`. */
  datatype Vec3 = Vec3(x: real, y: real, z: real) {
    /** `operator[]` */
    function At(i: nat): real
      requires i < DIMS_3D
    {
      if i == 0 then x else if i == 1 then y else z
    }

    /** `size()`: always the template argument `n`. */
    function Size(): (n: nat)
      ensures n == DIMS_3D
    {
      DIMS_3D
    }
  }

  /** The default constructor fills the entries with `element{}`, i.e. 0. */
  const Zero: Vec3 := Vec3(0.0, 0.0, 0.0)

  /** `Vector(std::initializer_list)`: throws unless the list has exactly three entries. */
  function FromList(list: seq<real>): (r: Result<Vec3>)
    ensures r.Ok? <==> |list| == DIMS_3D
    ensures r.Ok? ==> forall i :: 0 <= i < DIMS_3D ==> r.value.At(i) == list[i]
    ensures r.Throw? ==> r.error.InvalidArgument?
  {
    if |list| != DIMS_3D then
      Throw(InvalidArgument("std::initializer_list size does not match Vector size"))
    else
      Ok(Vec3(list[0], list[1], list[2]))
  }

  /** `operator+` */
  function Add(a: Vec3, b: Vec3): (r: Vec3)
    ensures forall i :: 0 <= i < DIMS_3D ==> r.At(i) == a.At(i) + b.At(i)
  {
    Vec3(a.x + b.x, a.y + b.y, a.z + b.z)
  }

  /** binary `operator-` */
  function Sub(a: Vec3, b: Vec3): (r: Vec3)
    ensures forall i :: 0 <= i < DIMS_3D ==> r.At(i) == a.At(i) - b.At(i)
  {
    Vec3(a.x - b.x, a.y - b.y, a.z - b.z)
  }

  /** unary `operator-` */
  function Neg(a: Vec3): (r: Vec3)
    ensures forall i :: 0 <= i < DIMS_3D ==> r.At(i) == -a.At(i)
  {
    Vec3(-a.x, -a.y, -a.z)
  }

  /** `vector * item` */
  function Scale(a: Vec3, k: real): (r: Vec3)
    ensures forall i :: 0 <= i < DIMS_3D ==> r.At(i) == a.At(i) * k
  {
    Vec3(a.x * k, a.y * k, a.z * k)
  }

  /** The friend `item * vector`, which the source writes as `vector * item`. */
  function ScaleLeft(k: real, a: Vec3): (r: Vec3)
    ensures forall i :: 0 <= i < DIMS_3D ==> r.At(i) == k * a.At(i)
  {
    Scale(a, k)
  }

  /** `operator/` by a scalar; a zero divisor (an IEEE infinity) is not modelled. */
  function Div(a: Vec3, k: real): (r: Vec3)
    requires k != 0.0
    ensures forall i :: 0 <= i < DIMS_3D ==> r.At(i) * k == a.At(i)
  {
    Vec3(a.x / k, a.y / k, a.z / k)
  }

  /** The component-wise `operator*` of two vectors. */
  function Mul(a: Vec3, b: Vec3): (r: Vec3)
    ensures forall i :: 0 <= i < DIMS_3D ==> r.At(i) == a.At(i) * b.At(i)
  {
    Vec3(a.x * b.x, a.y * b.y, a.z * b.z)
  }

  /** `dot`, member and free versions alike: the sum of the component products. */
  function Dot(a: Vec3, b: Vec3): real
  {
    a.x * b.x + a.y * b.y + a.z * b.z
  }

  /** `cross`, member and free versions alike: the 3-D determinant formula. */
  function Cross(a: Vec3, b: Vec3): Vec3
  {
    Vec3(a.y * b.z - a.z * b.y,
         a.z * b.x - a.x * b.z,
         a.x * b.y - a.y * b.x)
  }

  /** `operator==`: every component equal. */
  function Equals(a: Vec3, b: Vec3): (r: bool)
    ensures r <==> a == b
  {
    a.x == b.x && a.y == b.y && a.z == b.z
  }

  function Abs(r: real): real
  {
    if r < 0.0 then -r else r
  }

  function Max(a: real, b: real): real
  {
    if a < b then b else a
  }

  /** The absolute value of a product is the product of the absolute values. */
  lemma AbsProduct(a: real, b: real)
    ensures Abs(a * b) == Abs(a) * Abs(b)
  {
    if a < 0.0 && b < 0.0 {
      assert a * b == (-a) * (-b);
    } else if a < 0.0 {
      assert -(a * b) == (-a) * b;
    } else if b < 0.0 {
      assert -(a * b) == a * (-b);
    }
  }

  /** |h| = |a| |h / a|, and both sides are positive for a nonzero h. */
  lemma AbsOfQuotient(h: real, a: real)
    requires a != 0.0
    ensures Abs(h) == Abs(a) * Abs(h / a)
    ensures h != 0.0 ==> Abs(h) > 0.0 && Abs(h / a) > 0.0
  {
    var g := h / a;
    assert a * g == h;
    AbsProduct(a, g);
  }

  function Min(a: real, b: real): real
  {
    if a < b then a else b
  }

  /**
    `getNorm()`. The source takes `sqrt(dot(v, v))`; the model has no square root
    over `real` and uses the largest absolute entry instead. No contract of the
    model depends on which norm it is: only that it is positive exactly on the
    nonzero vectors, so that `Normalize` is a positive rescaling.
   */
  function Norm(v: Vec3): (n: real)
    ensures n >= 0.0
    ensures n == 0.0 <==> v == Zero
  {
    Max(Max(Abs(v.x), Abs(v.y)), Abs(v.z))
  }

  /**
    `normalized()` (and `normalize()` applied to a copy): every entry divided by
    the norm. The zero vector, which the source turns into NaNs, stays zero.
   */
  function Normalize(v: Vec3): (r: Vec3)
    ensures r == Zero <==> v == Zero
  {
    if v == Zero then v else Div(v, Norm(v))
  }

  /** The factor `Normalize` multiplies by. */
  function NormalizeFactor(v: Vec3): (k: real)
    ensures k > 0.0
  {
    if v == Zero then 1.0 else 1.0 / Norm(v)
  }

  /** Normalizing is a rescaling by a positive factor. */
  lemma NormalizeIsPositiveScaling(v: Vec3)
    ensures Normalize(v) == Scale(v, NormalizeFactor(v))
  {
    // Only that the norm of a nonzero vector is nonzero matters here.
    hide Norm;
    if v != Zero {
      var n := Norm(v);
      var f := 1.0 / n;
      assert NormalizeFactor(v) == f;
      DivIsMulInverse(v.x, n);
      DivIsMulInverse(v.y, n);
      DivIsMulInverse(v.z, n);
      assert Div(v, n) == Scale(v, f);
    }
  }

  lemma DivIsMulInverse(a: real, n: real)
    requires n != 0.0
    ensures a / n == a * (1.0 / n)
  {
    var q := a / n;
    assert q * n == a;
    assert (1.0 / n) * n == 1.0;
    calc {
      a * (1.0 / n);
      (q * n) * (1.0 / n);
      q * (n * (1.0 / n));
      q;
    }
  }

  /** `dot` is symmetric and sums the component products in index order. */
  lemma DotSymmetric(a: Vec3, b: Vec3)
    ensures Dot(a, b) == Dot(b, a)
    ensures Dot(a, b) == a.At(0) * b.At(0) + a.At(1) * b.At(1) + a.At(2) * b.At(2)
  {
  }

  /** `dot` is linear in a scaled argument. */
  lemma DotScale(a: Vec3, b: Vec3, k: real)
    ensures Dot(Scale(a, k), b) == k * Dot(a, b)
    ensures Dot(a, Scale(b, k)) == k * Dot(a, b)
  {
    calc {
      Dot(Scale(a, k), b);
      (a.x * k) * b.x + (a.y * k) * b.y + (a.z * k) * b.z;
      k * (a.x * b.x) + k * (a.y * b.y) + k * (a.z * b.z);
      k * Dot(a, b);
    }
    calc {
      Dot(a, Scale(b, k));
      a.x * (b.x * k) + a.y * (b.y * k) + a.z * (b.z * k);
      k * (a.x * b.x) + k * (a.y * b.y) + k * (a.z * b.z);
      k * Dot(a, b);
    }
  }

  /** `dot` distributes over `+` and `-` in its second argument. */
  lemma DotAddSub(a: Vec3, b: Vec3, c: Vec3)
    ensures Dot(a, Add(b, c)) == Dot(a, b) + Dot(a, c)
    ensures Dot(a, Sub(b, c)) == Dot(a, b) - Dot(a, c)
  {
  }

  /** Over reals the cross product is orthogonal to both of its arguments. */
  lemma CrossOrthogonal(a: Vec3, b: Vec3)
    ensures Dot(a, Cross(a, b)) == 0.0
    ensures Dot(b, Cross(a, b)) == 0.0
  {
    calc {
      Dot(a, Cross(a, b));
      a.x * (a.y * b.z - a.z * b.y) + a.y * (a.z * b.x - a.x * b.z) + a.z * (a.x * b.y - a.y * b.x);
      (a.x * a.y * b.z - a.y * a.x * b.z) + (a.y * a.z * b.x - a.z * a.y * b.x) + (a.z * a.x * b.y - a.x * a.z * b.y);
      0.0;
    }
    calc {
      Dot(b, Cross(a, b));
      b.x * (a.y * b.z - a.z * b.y) + b.y * (a.z * b.x - a.x * b.z) + b.z * (a.x * b.y - a.y * b.x);
      (b.x * a.y * b.z - b.z * a.y * b.x) + (b.y * a.z * b.x - b.x * a.z * b.y) + (b.z * a.x * b.y - b.y * a.x * b.z);
      0.0;
    }
  }

  /** The cross product is anti-commutative: a x b = -(b x a). */
  lemma CrossAntiCommutative(a: Vec3, b: Vec3)
    ensures Cross(a, b) == Neg(Cross(b, a))
  {
  }

  /**
    The scalar triple product is invariant under a cyclic shift and changes sign
    when two arguments swap: a . (b x c) = b . (c x a) = -(b . (a x c)).
   */
  lemma TripleProduct(a: Vec3, b: Vec3, c: Vec3)
    ensures Dot(a, Cross(b, c)) == Dot(b, Cross(c, a))
    ensures Dot(a, Cross(b, c)) == -Dot(b, Cross(a, c))
  {
    DeterminantCyclic(a.x, a.y, a.z, b.x, b.y, b.z, c.x, c.y, c.z);
    DeterminantSwap(a.x, a.y, a.z, b.x, b.y, b.z, c.x, c.y, c.z);
  }

  /** The 3 x 3 determinant with rows p, q, r equals the one with rows q, r, p. */
  lemma DeterminantCyclic(p1: real, p2: real, p3: real, q1: real, q2: real, q3: real,
                          r1: real, r2: real, r3: real)
    ensures p1 * (q2 * r3 - q3 * r2) + p2 * (q3 * r1 - q1 * r3) + p3 * (q1 * r2 - q2 * r1)
         == q1 * (r2 * p3 - r3 * p2) + q2 * (r3 * p1 - r1 * p3) + q3 * (r1 * p2 - r2 * p1)
  {
  }

  /** Swapping the rows p and q of a 3 x 3 determinant negates it. */
  lemma DeterminantSwap(p1: real, p2: real, p3: real, q1: real, q2: real, q3: real,
                        r1: real, r2: real, r3: real)
    ensures q1 * (p2 * r3 - p3 * r2) + q2 * (p3 * r1 - p1 * r3) + q3 * (p1 * r2 - p2 * r1)
         == -(p1 * (q2 * r3 - q3 * r2) + p2 * (q3 * r1 - q1 * r3) + p3 * (q1 * r2 - q2 * r1))
  {
  }

  /** Normalizing keeps the sign of every dot product, in particular orthogonality. */
  lemma NormalizeKeepsDotSign(a: Vec3, b: Vec3)
    ensures Dot(Normalize(a), b) == NormalizeFactor(a) * Dot(a, b)
    ensures (Dot(Normalize(a), b) > 0.0) <==> (Dot(a, b) > 0.0)
    ensures (Dot(Normalize(a), b) == 0.0) <==> (Dot(a, b) == 0.0)
  {
    NormalizeIsPositiveScaling(a);
    DotScale(a, b, NormalizeFactor(a));
    var k := NormalizeFactor(a);
    var d := Dot(a, b);
    assert k * d > 0.0 <==> d > 0.0 by {
      if d > 0.0 { assert k * d > 0.0; }
      if d <= 0.0 { assert k * d <= 0.0; }
    }
  }

  /** Normalizing the second argument of a dot product multiplies it by the normalizing factor. */
  lemma DotWithNormalized(a: Vec3, b: Vec3, c: real)
    requires Dot(a, b) == c
    ensures Dot(a, Normalize(b)) == NormalizeFactor(b) * c
  {
    NormalizeKeepsDotSign(b, a);
    DotSymmetric(a, b);
    DotSymmetric(a, Normalize(b));
  }

  /** A normalized vector has norm 1, so normalizing it again changes nothing. */
  lemma {:induction false} NormalizeIdempotent(v: Vec3)
    ensures v != Zero ==> Norm(Normalize(v)) == 1.0
    ensures Normalize(Normalize(v)) == Normalize(v)
  {
    if v != Zero {
      var n := Norm(v);
      NormOfDiv(v, n);
      assert n > 0.0;
      DivSelf(n);
      var w := Div(v, n);
      assert Normalize(v) == w;
      assert Norm(w) == 1.0;
      assert w != Zero;
      assert Div(w, 1.0) == w;
    }
  }

  lemma DivSelf(n: real)
    requires n != 0.0
    ensures n / n == 1.0
  {
  }

  lemma NormOfDiv(v: Vec3, n: real)
    requires n > 0.0
    ensures Norm(Div(v, n)) == Norm(v) / n
  {
    var ax, ay, az := Abs(v.x), Abs(v.y), Abs(v.z);
    AbsDiv(v.x, n);
    AbsDiv(v.y, n);
    AbsDiv(v.z, n);
    MaxDiv(ax, ay, n);
    MaxDiv(Max(ax, ay), az, n);
  }

  lemma AbsDiv(a: real, n: real)
    requires n > 0.0
    ensures Abs(a / n) == Abs(a) / n
  {
    if a < 0.0 {
      assert a / n < 0.0;
    } else {
      assert a / n >= 0.0;
    }
  }

  lemma MaxDiv(a: real, b: real, n: real)
    requires n > 0.0
    ensures Max(a / n, b / n) == Max(a, b) / n
  {
    if a < b {
      assert a / n < b / n;
    } else {
      assert !(a / n < b / n);
    }
  }

  /** Normalizing ignores a positive rescaling of its argument. */
  lemma {:induction false} NormalizeScaleInvariant(v: Vec3, k: real)
    requires k > 0.0
    ensures Normalize(Scale(v, k)) == Normalize(v)
  {
    var j := 1.0 / k;
    ScaleIsDivByInverse(v, k);
    NormalizeDivInvariant(v, j);
  }

  lemma ScaleIsDivByInverse(v: Vec3, k: real)
    requires k > 0.0
    ensures 1.0 / k > 0.0 && Scale(v, k) == Div(v, 1.0 / k)
  {
    var j := 1.0 / k;
    assert 1.0 / j == k;
    DivIsMulInverse(v.x, j);
    DivIsMulInverse(v.y, j);
    DivIsMulInverse(v.z, j);
  }

  lemma NormalizeDivInvariant(v: Vec3, j: real)
    requires j > 0.0
    ensures Normalize(Div(v, j)) == Normalize(v)
  {
    if v != Zero {
      var w := Div(v, j);
      var n := Norm(v);
      NormOfDiv(v, j);
      DivDivCancel(v.x, n, j);
      DivDivCancel(v.y, n, j);
      DivDivCancel(v.z, n, j);
      assert Div(w, n / j) == Div(v, n);
    }
  }

  lemma DivDivCancel(a: real, n: real, j: real)
    requires n != 0.0 && j != 0.0
    ensures (a / j) / (n / j) == a / n
  {
    var q := a / n;
    assert q * n == a;
    assert (q * (n / j)) * j == q * n;
    assert q * (n / j) == a / j;
  }

  /** Scaling multiplies the norm by the absolute value of the factor. */
  lemma NormScale(v: Vec3, k: real)
    ensures Norm(Scale(v, k)) == Abs(k) * Norm(v)
  {
    hide Norm;
    if k > 0.0 {
      NormScalePositive(v, k);
    } else if k == 0.0 {
      assert Scale(v, k) == Zero;
    } else {
      var u := Neg(v);
      assert Scale(u, -k) == Scale(v, k);
      NormNeg(v);
      NormScalePositive(u, -k);
    }
  }

  lemma NormNeg(v: Vec3)
    ensures Norm(Neg(v)) == Norm(v)
  {
    var u := Neg(v);
    assert Abs(u.x) == Abs(v.x) && Abs(u.y) == Abs(v.y) && Abs(u.z) == Abs(v.z);
  }

  lemma NormScalePositive(v: Vec3, k: real)
    requires k > 0.0
    ensures Norm(Scale(v, k)) == k * Norm(v)
  {
    hide Abs, Max;
    var s := Scale(v, k);
    var ax, ay, az := Abs(v.x), Abs(v.y), Abs(v.z);
    AbsMul(v.x, k, s.x);
    AbsMul(v.y, k, s.y);
    AbsMul(v.z, k, s.z);
    MaxMul(ax, ay, k, Abs(s.x), Abs(s.y));
    MaxMul(Max(ax, ay), az, k, Max(Abs(s.x), Abs(s.y)), Abs(s.z));
  }

  lemma AbsMul(a: real, k: real, ak: real)
    requires k > 0.0 && ak == a * k
    ensures Abs(ak) == k * Abs(a)
  {
    if a < 0.0 {
      assert ak < 0.0;
    } else {
      assert ak >= 0.0;
    }
  }

  lemma MaxMul(a: real, b: real, k: real, ka: real, kb: real)
    requires k > 0.0 && ka == k * a && kb == k * b
    ensures Max(ka, kb) == k * Max(a, b)
  {
    if a < b {
      assert ka < kb;
    } else {
      assert !(ka < kb);
    }
  }


  /** The vector triple product: a x (b x c) = (a . c) b - (a . b) c. */
  lemma CrossOfCross(a: Vec3, b: Vec3, c: Vec3)
    ensures Cross(a, Cross(b, c)) == Sub(Scale(b, Dot(a, c)), Scale(c, Dot(a, b)))
  {
    var ac, ab := Dot(a, c), Dot(a, b);
    TripleComponent(a.x, a.y, a.z, b.x, b.y, b.z, c.x, c.y, c.z, ac, ab);
    TripleComponent(a.y, a.z, a.x, b.y, b.z, b.x, c.y, c.z, c.x, ac, ab);
    TripleComponent(a.z, a.x, a.y, b.z, b.x, b.y, c.z, c.x, c.y, ac, ab);
    var t, s := Cross(a, Cross(b, c)), Sub(Scale(b, ac), Scale(c, ab));
    assert t.x == s.x && t.y == s.y && t.z == s.z;
  }

  /**
    One component of the vector triple product, over coordinates rotated so that
    it is the first: p2 (q1 r2 - q2 r1) - p3 (q3 r1 - q1 r3) = q1 (p . r) - r1 (p . q).
   */
  lemma TripleComponent(p1: real, p2: real, p3: real, q1: real, q2: real, q3: real,
                        r1: real, r2: real, r3: real, pr: real, pq: real)
    requires pr == p1 * r1 + p2 * r2 + p3 * r3 && pq == p1 * q1 + p2 * q2 + p3 * q3
    ensures p2 * (q1 * r2 - q2 * r1) - p3 * (q3 * r1 - q1 * r3) == q1 * pr - r1 * pq
  {
    MulLeft(q1, pr, p1 * r1 + p2 * r2 + p3 * r3);
    MulLeft(r1, pq, p1 * q1 + p2 * q2 + p3 * q3);
  }

  lemma MulLeft(x: real, p: real, q: real)
    requires p == q
    ensures x * p == x * q
  {
  }

  /** A nonzero vector has a positive square. */
  lemma DotSelfPositive(a: Vec3)
    requires a != Zero
    ensures Dot(a, a) > 0.0
  {
    assert a.x != 0.0 || a.y != 0.0 || a.z != 0.0 by {
      assert a == Vec3(a.x, a.y, a.z);
    }
    SquareNonNegative(a.x);
    SquareNonNegative(a.y);
    SquareNonNegative(a.z);
    if a.x != 0.0 {
      SquarePositive(a.x);
    } else if a.y != 0.0 {
      SquarePositive(a.y);
    } else {
      SquarePositive(a.z);
    }
    DotPositive(a, a);
  }

  /** Component products that are all non-negative, one of them positive, sum to a positive dot product. */
  lemma DotPositive(a: Vec3, b: Vec3)
    requires a.x * b.x >= 0.0 && a.y * b.y >= 0.0 && a.z * b.z >= 0.0
    requires a.x * b.x > 0.0 || a.y * b.y > 0.0 || a.z * b.z > 0.0
    ensures Dot(a, b) > 0.0
  {
  }

  lemma SquareNonNegative(x: real)
    ensures x * x >= 0.0
  {
    if x < 0.0 {
      assert x * x == (-x) * (-x);
    }
  }

  lemma SquarePositive(x: real)
    requires x != 0.0
    ensures x * x > 0.0
  {
    if x < 0.0 {
      assert x * x == (-x) * (-x);
      assert (-x) * (-x) > 0.0;
    } else {
      assert x * x > 0.0;
    }
  }

  /** Two nonzero orthogonal vectors have a nonzero cross product. */
  lemma CrossOfOrthogonal(a: Vec3, b: Vec3)
    requires a != Zero && b != Zero && Dot(a, b) == 0.0
    ensures Cross(a, b) != Zero
  {
    CrossOfCross(a, a, b);
    DotSelfPositive(a);
    var d := Dot(a, a);
    var t := Cross(a, Cross(a, b));
    assert t == Sub(Scale(a, 0.0), Scale(b, d));
    assert b.x * d != 0.0 || b.y * d != 0.0 || b.z * d != 0.0 by {
      if b.x != 0.0 {
        assert b.x * d != 0.0;
      } else if b.y != 0.0 {
        assert b.y * d != 0.0;
      } else {
        assert b.z != 0.0;
        assert b.z * d != 0.0;
      }
    }
    assert t != Zero;
    assert Cross(a, Zero) == Zero;
  }

  /** A unit vector in the source's Euclidean sense: n . n = 1. */
  predicate IsUnit(n: Vec3)
  {
    Dot(n, n) == 1.0
  }

  // ---------------------------------------------------------------------
  // Vector<int, 3>: the vertex-index triple of a mesh face
  // ---------------------------------------------------------------------

  /** `Vector<int, 3>`: three vertex indices of one mesh face. */
  datatype Face = Face(a: int, b: int, c: int) {
    /** `operator[]` */
    function At(i: nat): int
      requires i < DIMS_3D
    {
      if i == 0 then a else if i == 1 then b else c
    }
  }
}
