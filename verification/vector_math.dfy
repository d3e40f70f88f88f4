/** The engine's vector and quaternion arithmetic over idealised reals.

    The engine's own `Vector3`, `Quaternion` and `Matrix4x4` operators are not
    part of this model; this module defines the standard operations the
    orientation code relies on:
    - `Dot`, `Cross` and scaling of 3-vectors;
    - `Normalize`, which returns the zero vector when the magnitude is at most
      `VectorEpsilon`, as the engine's `Vector3.normalized` does;
    - the Hamilton product `Mul`, the conjugate as the inverse of a unit
      quaternion, and `Rotate`, the engine's quaternion-times-vector formula;
    - `QNormalize`, which returns the identity for a quaternion of (near) zero
      magnitude, as the engine's `Quaternion.normalized` does;
    - `HalfTurn`, the engine's `AngleAxis(180, axis)` for a unit axis.

    Square roots come from a caller-supplied function `sqrt` satisfying
    `IsSqrt`: the real numbers of the model have no built-in square root.
    Squares are written `Sq(t)` rather than `t * t` throughout, which keeps
    every square the solver sees in one form. */
module VectorMath {

  datatype Vec3 = Vec3(x: real, y: real, z: real)

  /** A quaternion with vector part (x, y, z) and scalar part w. */
  datatype Quat = Quat(x: real, y: real, z: real, w: real)

  const Zero := Vec3(0.0, 0.0, 0.0)
  const Right := Vec3(1.0, 0.0, 0.0)
  const Up := Vec3(0.0, 1.0, 0.0)
  const Forward := Vec3(0.0, 0.0, 1.0)
  const One := Vec3(1.0, 1.0, 1.0)
  const Identity := Quat(0.0, 0.0, 0.0, 1.0)

  /** Magnitude at or below which `Vector3.normalized` yields the zero vector. */
  const VectorEpsilon: real := 0.00001

  /** `Mathf.Epsilon`, the smallest positive single-precision float. */
  const FloatEpsilon: real := 0.000000000000000000000000000000000000000000001401298

  function Sq(a: real): real
  {
    a * a
  }

  /** `sqrt` is a square root on the non-negative reals. */
  ghost predicate IsSqrt(sqrt: real -> real)
  {
    forall a: real {:trigger sqrt(a)} :: a >= 0.0 ==> sqrt(a) >= 0.0 && Sq(sqrt(a)) == a
  }

  // ---------------------------------------------------------------- vectors

  function Neg(a: Vec3): Vec3
  {
    Vec3(-a.x, -a.y, -a.z)
  }

  function Scale(a: Vec3, k: real): Vec3
  {
    Vec3(a.x * k, a.y * k, a.z * k)
  }

  function Dot(a: Vec3, b: Vec3): real
  {
    a.x * b.x + a.y * b.y + a.z * b.z
  }

  function Cross(a: Vec3, b: Vec3): (c: Vec3)
    ensures Dot(c, a) == 0.0 && Dot(c, b) == 0.0
  {
    Vec3(a.y * b.z - a.z * b.y, a.z * b.x - a.x * b.z, a.x * b.y - a.y * b.x)
  }

  /** The squared magnitude, `Vector3.sqrMagnitude`. */
  function SqrMagnitude(a: Vec3): (m: real)
    ensures m >= 0.0
    ensures m > 0.0 <==> a != Zero
  {
    SqrMagnitudeSign(a);
    Dot(a, a)
  }

  function Magnitude(sqrt: real -> real, a: Vec3): (m: real)
    requires IsSqrt(sqrt)
    ensures m >= 0.0 && Sq(m) == SqrMagnitude(a)
  {
    sqrt(SqrMagnitude(a))
  }

  /** `Vector3.normalized`: the unit vector along `a`, or zero when `a` is
      (nearly) the zero vector. */
  function Normalize(sqrt: real -> real, a: Vec3): (n: Vec3)
    requires IsSqrt(sqrt)
    ensures Magnitude(sqrt, a) > VectorEpsilon ==> SqrMagnitude(n) == 1.0
    ensures Magnitude(sqrt, a) <= VectorEpsilon ==> n == Zero
    ensures n != Zero <==> Magnitude(sqrt, a) > VectorEpsilon
    ensures exists k: real {:trigger Scale(a, k)} :: k >= 0.0 && n == Scale(a, k)
  {
    var m := Magnitude(sqrt, a);
    if m > VectorEpsilon then
      var n := Scale(a, 1.0 / m);
      UnitAfterDivision(a, m);
      assert n == Scale(a, 1.0 / m);
      n
    else
      assert Zero == Scale(a, 0.0);
      Zero
  }

  // ------------------------------------------------------------ quaternions

  /** The Hamilton product, the engine's `Quaternion * Quaternion`. */
  function Mul(p: Quat, q: Quat): Quat
  {
    Quat(p.w * q.x + p.x * q.w + p.y * q.z - p.z * q.y,
         p.w * q.y + p.y * q.w + p.z * q.x - p.x * q.z,
         p.w * q.z + p.z * q.w + p.x * q.y - p.y * q.x,
         p.w * q.w - p.x * q.x - p.y * q.y - p.z * q.z)
  }

  function Conjugate(q: Quat): Quat
  {
    Quat(-q.x, -q.y, -q.z, q.w)
  }

  /** `Quaternion.Inverse`, modelled as the conjugate: the two agree on the
      unit quaternions, which are the only ones it is applied to here. */
  function Inverse(q: Quat): Quat
  {
    Conjugate(q)
  }

  function QSqrMagnitude(q: Quat): (m: real)
    ensures m >= 0.0
  {
    SqNonNegative(q.x);
    SqNonNegative(q.y);
    SqNonNegative(q.z);
    SqNonNegative(q.w);
    Sq(q.x) + Sq(q.y) + Sq(q.z) + Sq(q.w)
  }

  ghost predicate IsUnit(q: Quat)
  {
    QSqrMagnitude(q) == 1.0
  }

  function QScale(q: Quat, k: real): Quat
  {
    Quat(q.x * k, q.y * k, q.z * k, q.w * k)
  }

  /** `Quaternion.normalized`: `q` scaled to unit length, or the identity when
      its magnitude is below `Mathf.Epsilon`. */
  function QNormalize(sqrt: real -> real, q: Quat): (r: Quat)
    requires IsSqrt(sqrt)
    ensures IsUnit(r)
    ensures sqrt(QSqrMagnitude(q)) >= FloatEpsilon ==>
              exists k: real {:trigger QScale(q, k)} :: k > 0.0 && r == QScale(q, k)
    ensures sqrt(QSqrMagnitude(q)) < FloatEpsilon ==> r == Identity
  {
    var m := sqrt(QSqrMagnitude(q));
    if m < FloatEpsilon then
      assert QSqrMagnitude(Identity) == 1.0 by { SqOfOne(); }
      Identity
    else
      QUnitAfterDivision(q, m);
      QScale(q, 1.0 / m)
  }

  /** The engine's `Quaternion * Vector3`: `v` rotated by the unit quaternion
      `q`, written as the rotation-matrix expansion the engine uses. */
  function Rotate(q: Quat, v: Vec3): Vec3
  {
    var x := q.x * 2.0;
    var y := q.y * 2.0;
    var z := q.z * 2.0;
    var xx := q.x * x;
    var yy := q.y * y;
    var zz := q.z * z;
    var xy := q.x * y;
    var xz := q.x * z;
    var yz := q.y * z;
    var wx := q.w * x;
    var wy := q.w * y;
    var wz := q.w * z;
    Vec3((1.0 - (yy + zz)) * v.x + (xy - wz) * v.y + (xz + wy) * v.z,
         (xy + wz) * v.x + (1.0 - (xx + zz)) * v.y + (yz - wx) * v.z,
         (xz - wy) * v.x + (yz + wx) * v.y + (1.0 - (xx + yy)) * v.z)
  }

  /** `AngleAxis(180, axis)` for a unit `axis`: cos 90 = 0 and sin 90 = 1. */
  function HalfTurn(axis: Vec3): Quat
  {
    Quat(axis.x, axis.y, axis.z, 0.0)
  }

  // ------------------------------------------------------ squares and signs

  function Prod(a: real, b: real): real
  {
    a * b
  }

  lemma ProdPositive(a: real, b: real)
    requires a > 0.0 && b > 0.0
    ensures Prod(a, b) > 0.0
  {
  }

  lemma SqNegate(a: real)
    ensures Sq(-a) == Sq(a)
  {
  }

  lemma SqOfOne()
    ensures Sq(1.0) == 1.0 && Sq(0.0) == 0.0
  {
  }

  lemma SqNonNegative(a: real)
    ensures Sq(a) >= 0.0
    ensures a != 0.0 ==> Sq(a) > 0.0
  {
    if a > 0.0 {
      ProdPositive(a, a);
    } else if a < 0.0 {
      ProdPositive(-a, -a);
      SqNegate(a);
    }
  }

  lemma SqrMagnitudeSign(a: Vec3)
    ensures Dot(a, a) >= 0.0
    ensures Dot(a, a) > 0.0 <==> a != Zero
  {
    SqNonNegative(a.x);
    SqNonNegative(a.y);
    SqNonNegative(a.z);
    assert Dot(a, a) == Sq(a.x) + Sq(a.y) + Sq(a.z);
    assert a == Vec3(a.x, a.y, a.z);
  }

  lemma UnitAfterDivision(a: Vec3, m: real)
    requires m > 0.0 && Sq(m) == SqrMagnitude(a)
    ensures SqrMagnitude(Scale(a, 1.0 / m)) == 1.0
  {
    var k := 1.0 / m;
    assert k * m == 1.0;
    calc {
      SqrMagnitude(Scale(a, k));
      (a.x * k) * (a.x * k) + (a.y * k) * (a.y * k) + (a.z * k) * (a.z * k);
      (a.x * a.x + a.y * a.y + a.z * a.z) * (k * k);
      (m * m) * (k * k);
      (m * k) * (m * k);
    }
  }

  lemma QUnitAfterDivision(q: Quat, m: real)
    requires m > 0.0 && Sq(m) == QSqrMagnitude(q)
    ensures IsUnit(QScale(q, 1.0 / m))
  {
    var k := 1.0 / m;
    assert k * m == 1.0;
    calc {
      QSqrMagnitude(QScale(q, k));
      (q.x * k) * (q.x * k) + (q.y * k) * (q.y * k) + (q.z * k) * (q.z * k) + (q.w * k) * (q.w * k);
      (q.x * q.x + q.y * q.y + q.z * q.z + q.w * q.w) * (k * k);
      (m * m) * (k * k);
      (m * k) * (m * k);
    }
  }

  // --------------------------------------------------------- algebraic laws

  /** Dot products scale linearly in their first argument. */
  lemma DotScale(a: Vec3, k: real, b: Vec3)
    ensures Dot(Scale(a, k), b) == k * Dot(a, b)
  {
  }

  /** Lagrange's identity: |a x b|^2 = |a|^2 |b|^2 - (a . b)^2. */
  lemma Lagrange(a: Vec3, b: Vec3)
    ensures SqrMagnitude(Cross(a, b)) == SqrMagnitude(a) * SqrMagnitude(b) - Sq(Dot(a, b))
  {
  }

  lemma MulDef(p: Quat, q: Quat)
    ensures Mul(p, q).x == p.w * q.x + p.x * q.w + p.y * q.z - p.z * q.y
    ensures Mul(p, q).y == p.w * q.y + p.y * q.w + p.z * q.x - p.x * q.z
    ensures Mul(p, q).z == p.w * q.z + p.z * q.w + p.x * q.y - p.y * q.x
    ensures Mul(p, q).w == p.w * q.w - p.x * q.x - p.y * q.y - p.z * q.z
  {
  }

  /** The Hamilton product is associative. */
  lemma MulAssociative(p: Quat, q: Quat, r: Quat)
    ensures Mul(Mul(p, q), r) == Mul(p, Mul(q, r))
  {
    var a := Mul(p, q);
    var b := Mul(q, r);
    MulDef(p, q);
    MulDef(q, r);
    MulDef(a, r);
    MulDef(p, b);
    AssociativeX(p, q, r, a.x, a.y, a.z, a.w, b.x, b.y, b.z, b.w);
    AssociativeY(p, q, r, a.x, a.y, a.z, a.w, b.x, b.y, b.z, b.w);
    AssociativeZ(p, q, r, a.x, a.y, a.z, a.w, b.x, b.y, b.z, b.w);
    AssociativeW(p, q, r, a.x, a.y, a.z, a.w, b.x, b.y, b.z, b.w);
  }

  // One lemma per component of `MulAssociative`: (ax, ay, az, aw) is p * q
  // and (bx, by_, bz, bw) is q * r, spelled out.

  lemma AssociativeX(p: Quat, q: Quat, r: Quat, ax: real, ay: real, az: real, aw: real, bx: real, by_: real, bz: real, bw: real)
    requires ax == p.w * q.x + p.x * q.w + p.y * q.z - p.z * q.y
    requires ay == p.w * q.y + p.y * q.w + p.z * q.x - p.x * q.z
    requires az == p.w * q.z + p.z * q.w + p.x * q.y - p.y * q.x
    requires aw == p.w * q.w - p.x * q.x - p.y * q.y - p.z * q.z
    requires bx == q.w * r.x + q.x * r.w + q.y * r.z - q.z * r.y
    requires by_ == q.w * r.y + q.y * r.w + q.z * r.x - q.x * r.z
    requires bz == q.w * r.z + q.z * r.w + q.x * r.y - q.y * r.x
    requires bw == q.w * r.w - q.x * r.x - q.y * r.y - q.z * r.z
    ensures aw * r.x + ax * r.w + ay * r.z - az * r.y == p.w * bx + p.x * bw + p.y * bz - p.z * by_
  {
  }

  lemma AssociativeY(p: Quat, q: Quat, r: Quat, ax: real, ay: real, az: real, aw: real, bx: real, by_: real, bz: real, bw: real)
    requires ax == p.w * q.x + p.x * q.w + p.y * q.z - p.z * q.y
    requires ay == p.w * q.y + p.y * q.w + p.z * q.x - p.x * q.z
    requires az == p.w * q.z + p.z * q.w + p.x * q.y - p.y * q.x
    requires aw == p.w * q.w - p.x * q.x - p.y * q.y - p.z * q.z
    requires bx == q.w * r.x + q.x * r.w + q.y * r.z - q.z * r.y
    requires by_ == q.w * r.y + q.y * r.w + q.z * r.x - q.x * r.z
    requires bz == q.w * r.z + q.z * r.w + q.x * r.y - q.y * r.x
    requires bw == q.w * r.w - q.x * r.x - q.y * r.y - q.z * r.z
    ensures aw * r.y + ay * r.w + az * r.x - ax * r.z == p.w * by_ + p.y * bw + p.z * bx - p.x * bz
  {
  }

  lemma AssociativeZ(p: Quat, q: Quat, r: Quat, ax: real, ay: real, az: real, aw: real, bx: real, by_: real, bz: real, bw: real)
    requires ax == p.w * q.x + p.x * q.w + p.y * q.z - p.z * q.y
    requires ay == p.w * q.y + p.y * q.w + p.z * q.x - p.x * q.z
    requires az == p.w * q.z + p.z * q.w + p.x * q.y - p.y * q.x
    requires aw == p.w * q.w - p.x * q.x - p.y * q.y - p.z * q.z
    requires bx == q.w * r.x + q.x * r.w + q.y * r.z - q.z * r.y
    requires by_ == q.w * r.y + q.y * r.w + q.z * r.x - q.x * r.z
    requires bz == q.w * r.z + q.z * r.w + q.x * r.y - q.y * r.x
    requires bw == q.w * r.w - q.x * r.x - q.y * r.y - q.z * r.z
    ensures aw * r.z + az * r.w + ax * r.y - ay * r.x == p.w * bz + p.z * bw + p.x * by_ - p.y * bx
  {
  }

  lemma AssociativeW(p: Quat, q: Quat, r: Quat, ax: real, ay: real, az: real, aw: real, bx: real, by_: real, bz: real, bw: real)
    requires ax == p.w * q.x + p.x * q.w + p.y * q.z - p.z * q.y
    requires ay == p.w * q.y + p.y * q.w + p.z * q.x - p.x * q.z
    requires az == p.w * q.z + p.z * q.w + p.x * q.y - p.y * q.x
    requires aw == p.w * q.w - p.x * q.x - p.y * q.y - p.z * q.z
    requires bx == q.w * r.x + q.x * r.w + q.y * r.z - q.z * r.y
    requires by_ == q.w * r.y + q.y * r.w + q.z * r.x - q.x * r.z
    requires bz == q.w * r.z + q.z * r.w + q.x * r.y - q.y * r.x
    requires bw == q.w * r.w - q.x * r.x - q.y * r.y - q.z * r.z
    ensures aw * r.w - ax * r.x - ay * r.y - az * r.z == p.w * bw - p.x * bx - p.y * by_ - p.z * bz
  {
  }

  /** The identity is a right unit of the product. */
  lemma MulIdentity(p: Quat)
    ensures Mul(p, Identity) == p
    ensures Mul(Identity, p) == p
  {
  }

  /** The conjugate of a unit quaternion is its inverse. */
  lemma MulInverse(q: Quat)
    requires IsUnit(q)
    ensures Mul(q, Inverse(q)) == Identity
  {
  }

  /** The inverse of a unit quaternion is also its left inverse. */
  lemma InverseMul(q: Quat)
    requires IsUnit(q)
    ensures Mul(Inverse(q), q) == Identity
  {
  }

  /** The identity rotation leaves every vector where it is. */
  lemma RotateIdentity(v: Vec3)
    ensures Rotate(Identity, v) == v
  {
  }

  /** A half turn about a unit axis reverses every vector orthogonal to it. */
  lemma HalfTurnReverses(axis: Vec3, v: Vec3)
    requires SqrMagnitude(axis) == 1.0 && Dot(axis, v) == 0.0
    ensures Rotate(HalfTurn(axis), v) == Neg(v)
  {
  }

  /** Squaring is strictly increasing on the non-negative reals. */
  lemma SqStrictlyIncreasing(a: real, b: real)
    requires 0.0 <= a < b
    ensures Sq(a) < Sq(b)
  {
    ProdPositive(b - a, b + a);
    assert Sq(b) - Sq(a) == Prod(b - a, b + a);
  }

  /** `sqrt` is bounded below by any non-negative `c` whose square does not
      exceed its argument. */
  lemma SqrtAtLeast(sqrt: real -> real, a: real, c: real)
    requires IsSqrt(sqrt) && a >= 0.0 && 0.0 <= c && Sq(c) <= a
    ensures sqrt(a) >= c
  {
    if sqrt(a) < c {
      SqStrictlyIncreasing(sqrt(a), c);
    }
  }

  lemma SqOfProduct(a: real, b: real)
    ensures Sq(a * b) == Sq(a) * Sq(b)
  {
  }

  /** The zero vector normalises to itself. */
  lemma NormalizeZero(sqrt: real -> real)
    requires IsSqrt(sqrt)
    ensures Normalize(sqrt, Zero) == Zero
  {
    ZeroMagnitude(Magnitude(sqrt, Zero));
  }

  /** A non-negative number whose square is zero is zero. */
  lemma ZeroMagnitude(m: real)
    requires m >= 0.0 && Sq(m) == 0.0
    ensures m == 0.0
  {
    if m > 0.0 {
      SqStrictlyIncreasing(0.0, m);
    }
  }

  /** A unit vector normalises to itself. */
  lemma NormalizeUnit(sqrt: real -> real, u: Vec3)
    requires IsSqrt(sqrt) && SqrMagnitude(u) == 1.0
    ensures Normalize(sqrt, u) == u
  {
    var m := Magnitude(sqrt, u);
    SqOfOne();
    if m < 1.0 {
      SqStrictlyIncreasing(m, 1.0);
    } else if m > 1.0 {
      SqStrictlyIncreasing(1.0, m);
    }
    assert Scale(u, 1.0 / 1.0) == u;
  }

  /** Normalising twice is normalising once. */
  lemma NormalizeIdempotent(sqrt: real -> real, a: Vec3)
    requires IsSqrt(sqrt)
    ensures Normalize(sqrt, Normalize(sqrt, a)) == Normalize(sqrt, a)
  {
    if Normalize(sqrt, a) == Zero {
      NormalizeZero(sqrt);
    } else {
      NormalizeUnit(sqrt, Normalize(sqrt, a));
    }
  }

  /** A vector longer than `VectorEpsilon` is its normalised direction times
      its magnitude. */
  lemma NormalizeScaleBack(sqrt: real -> real, a: Vec3)
    requires IsSqrt(sqrt) && Magnitude(sqrt, a) > VectorEpsilon
    ensures Scale(Normalize(sqrt, a), Magnitude(sqrt, a)) == a
  {
    var m := Magnitude(sqrt, a);
    DivideBack(a.x, m);
    DivideBack(a.y, m);
    DivideBack(a.z, m);
  }

  lemma DivideBack(c: real, m: real)
    requires m != 0.0
    ensures (c * (1.0 / m)) * m == c
  {
  }

  /** Normalising keeps a vector orthogonal to whatever it was orthogonal to. */
  lemma NormalizedOrthogonal(sqrt: real -> real, c: Vec3, v: Vec3)
    requires IsSqrt(sqrt) && Dot(c, v) == 0.0
    ensures Dot(Normalize(sqrt, c), v) == 0.0
  {
    var k: real :| k >= 0.0 && Normalize(sqrt, c) == Scale(c, k);
    DotScale(c, k, v);
  }

  /** A half turn about a unit axis is a unit quaternion. */
  lemma HalfTurnUnit(axis: Vec3)
    requires SqrMagnitude(axis) == 1.0
    ensures IsUnit(HalfTurn(axis))
  {
    SqOfOne();
  }

  /** The product of two unit quaternions is a unit quaternion. */
  lemma MulUnit(p: Quat, q: Quat)
    requires IsUnit(p) && IsUnit(q)
    ensures IsUnit(Mul(p, q))
  {
    MulMagnitude(p, q);
  }

  /** Magnitudes multiply under the Hamilton product. */
  lemma MulMagnitude(p: Quat, q: Quat)
    ensures QSqrMagnitude(Mul(p, q)) == QSqrMagnitude(p) * QSqrMagnitude(q)
  {
    var m := Mul(p, q);
    MulDef(p, q);
    ProductMagnitude(p, q, m.x, m.y, m.z, m.w);
  }

  /** Euler's four-square identity, for (ax, ay, az, aw) the product p * q. */
  lemma ProductMagnitude(p: Quat, q: Quat, ax: real, ay: real, az: real, aw: real)
    requires ax == p.w * q.x + p.x * q.w + p.y * q.z - p.z * q.y
    requires ay == p.w * q.y + p.y * q.w + p.z * q.x - p.x * q.z
    requires az == p.w * q.z + p.z * q.w + p.x * q.y - p.y * q.x
    requires aw == p.w * q.w - p.x * q.x - p.y * q.y - p.z * q.z
    ensures Sq(ax) + Sq(ay) + Sq(az) + Sq(aw)
         == (Sq(p.x) + Sq(p.y) + Sq(p.z) + Sq(p.w)) * (Sq(q.x) + Sq(q.y) + Sq(q.z) + Sq(q.w))
  {
    FourSquare(p.x, p.y, p.z, p.w, q.x, q.y, q.z, q.w);
  }

  lemma FourSquare(px: real, py: real, pz: real, pw: real, qx: real, qy: real, qz: real, qw: real)
    ensures Sq(pw * qx + px * qw + py * qz - pz * qy) + Sq(pw * qy + py * qw + pz * qx - px * qz)
          + Sq(pw * qz + pz * qw + px * qy - py * qx) + Sq(pw * qw - px * qx - py * qy - pz * qz)
         == (Sq(px) + Sq(py) + Sq(pz) + Sq(pw)) * (Sq(qx) + Sq(qy) + Sq(qz) + Sq(qw))
  {
  }

  /** The only positive number whose square is one is one. */
  lemma PositiveUnitRoot(a: real)
    requires a > 0.0 && Sq(a) == 1.0
    ensures a == 1.0
  {
    SqOfOne();
    if a < 1.0 {
      SqStrictlyIncreasing(a, 1.0);
    } else if a > 1.0 {
      SqStrictlyIncreasing(1.0, a);
    }
  }

  /** The rows of the engine's rotation, written out. */
  lemma RotateRowX(q: Quat, v: Vec3)
    ensures Rotate(q, v).x == (1.0 - (q.y * (q.y * 2.0) + q.z * (q.z * 2.0))) * v.x
                  + (q.x * (q.y * 2.0) - q.w * (q.z * 2.0)) * v.y + (q.x * (q.z * 2.0) + q.w * (q.y * 2.0)) * v.z
  {
  }

  lemma RotateRowY(q: Quat, v: Vec3)
    ensures Rotate(q, v).y == (q.x * (q.y * 2.0) + q.w * (q.z * 2.0)) * v.x
                  + (1.0 - (q.x * (q.x * 2.0) + q.z * (q.z * 2.0))) * v.y + (q.y * (q.z * 2.0) - q.w * (q.x * 2.0)) * v.z
  {
  }

  lemma RotateRowZ(q: Quat, v: Vec3)
    ensures Rotate(q, v).z == (q.x * (q.z * 2.0) - q.w * (q.y * 2.0)) * v.x
                  + (q.y * (q.z * 2.0) + q.w * (q.x * 2.0)) * v.y + (1.0 - (q.x * (q.x * 2.0) + q.y * (q.y * 2.0))) * v.z
  {
  }

  /** `Dot`, `SqrMagnitude` and `Cross` in coordinates, for proofs that work
      component by component. */
  lemma DotOf(a: Vec3, b: Vec3)
    ensures Dot(a, b) == a.x * b.x + a.y * b.y + a.z * b.z
  {
  }

  lemma SqrMagnitudeOf(a: Vec3)
    ensures SqrMagnitude(a) == a.x * a.x + a.y * a.y + a.z * a.z
  {
  }

  lemma CrossOf(a: Vec3, b: Vec3)
    ensures Cross(a, b).x == a.y * b.z - a.z * b.y
    ensures Cross(a, b).y == a.z * b.x - a.x * b.z
    ensures Cross(a, b).z == a.x * b.y - a.y * b.x
  {
  }

  /** `((a x u) x a).x = u.x - (a . u) a.x` for a unit `a`, with `cy`, `cz`
      the components of `a x u` and `r` the x component of `(a x u) x a`. */
  lemma CrossBackRow(ax: real, ay: real, az: real, ux: real, uy: real, uz: real, d: real,
                     m: real, cy: real, cz: real, r: real)
    requires m == ax * ax + ay * ay + az * az && m == 1.0 && d == ax * ux + ay * uy + az * uz
    requires cy == az * ux - ax * uz && cz == ax * uy - ay * ux && r == cy * az - cz * ay
    ensures r == ux - d * ax
  {
    assert (az * ux - ax * uz) * az - (ax * uy - ay * ux) * ay
        == ux * (ay * ay + az * az) - ax * (ay * uy + az * uz);
  }

  /** `CrossBack` one component at a time. */
  lemma CrossBackX(a: Vec3, b: Vec3)
    requires SqrMagnitude(a) == 1.0
    ensures Cross(Cross(a, b), a).x == b.x - Dot(a, b) * a.x
  {
    var c := Cross(a, b);
    SqrMagnitudeOf(a);
    DotOf(a, b);
    CrossOf(a, b);
    CrossOf(c, a);
    CrossBackRow(a.x, a.y, a.z, b.x, b.y, b.z, Dot(a, b), SqrMagnitude(a), c.y, c.z, Cross(c, a).x);
  }

  lemma CrossBackY(a: Vec3, b: Vec3)
    requires SqrMagnitude(a) == 1.0
    ensures Cross(Cross(a, b), a).y == b.y - Dot(a, b) * a.y
  {
    var c := Cross(a, b);
    SqrMagnitudeOf(a);
    DotOf(a, b);
    CrossOf(a, b);
    CrossOf(c, a);
    CrossBackRow(a.y, a.z, a.x, b.y, b.z, b.x, Dot(a, b), SqrMagnitude(a), c.z, c.x, Cross(c, a).y);
  }

  lemma CrossBackZ(a: Vec3, b: Vec3)
    requires SqrMagnitude(a) == 1.0
    ensures Cross(Cross(a, b), a).z == b.z - Dot(a, b) * a.z
  {
    var c := Cross(a, b);
    SqrMagnitudeOf(a);
    DotOf(a, b);
    CrossOf(a, b);
    CrossOf(c, a);
    CrossBackRow(a.z, a.x, a.y, b.z, b.x, b.y, Dot(a, b), SqrMagnitude(a), c.x, c.y, Cross(c, a).z);
  }

  /** For a unit `a`, `(a x b) x a` is the part of `b` orthogonal to `a`. */
  lemma CrossBack(a: Vec3, b: Vec3)
    requires SqrMagnitude(a) == 1.0
    ensures var d := Dot(a, b);
            Cross(Cross(a, b), a) == Vec3(b.x - d * a.x, b.y - d * a.y, b.z - d * a.z)
  {
    CrossBackX(a, b);
    CrossBackY(a, b);
    CrossBackZ(a, b);
  }

  /** Normalising a unit quaternion leaves it as it is. */
  lemma QNormalizeUnit(sqrt: real -> real, q: Quat)
    requires IsSqrt(sqrt) && IsUnit(q)
    ensures QNormalize(sqrt, q) == q
  {
    SqOfOne();
    PositiveUnitRoot(sqrt(1.0));
  }

  /** The inverse of a unit quaternion is a unit quaternion. */
  lemma InverseUnit(q: Quat)
    requires IsUnit(q)
    ensures IsUnit(Inverse(q))
  {
  }

  /** Scaling a vector by `k` scales its squared length by `k^2`. */
  lemma ScaleSqrMagnitude(a: Vec3, k: real)
    ensures SqrMagnitude(Scale(a, k)) == Sq(k) * SqrMagnitude(a)
  {
    SqrMagnitudeOf(a);
    SqrMagnitudeOf(Scale(a, k));
  }

  /** The scalar triple product is invariant under cyclic shifts. */
  lemma TripleProduct(a: Vec3, b: Vec3, c: Vec3)
    ensures Dot(Cross(a, b), c) == Dot(Cross(c, a), b)
  {
    DotOf(Cross(a, b), c);
    DotOf(Cross(c, a), b);
    CrossOf(a, b);
    CrossOf(c, a);
  }

  /** A vector dotted with a non-negative multiple of itself. */
  lemma ScaledSelfDot(c: Vec3, k: real)
    requires k >= 0.0
    ensures Dot(c, Scale(c, k)) >= 0.0
    ensures Scale(c, k) != Zero ==> Dot(c, Scale(c, k)) > 0.0
  {
    DotOf(c, Scale(c, k));
    SqrMagnitudeOf(c);
    assert Dot(c, Scale(c, k)) == k * SqrMagnitude(c);
    if Scale(c, k) != Zero {
      assert k != 0.0 && c != Zero;
    }
  }

  /** The squared length of the forward axis turned by a unit quaternion,
      `4 a b + (1 - 2 a)^2` with `a + b = 1`, is one. */
  lemma UnitForwardLength(x: real, y: real, z: real, w: real, a: real, b: real)
    requires a == x * x + y * y && b == z * z + w * w && a + b == 1.0
    ensures Sq(x * (z * 2.0) + w * (y * 2.0)) + Sq(y * (z * 2.0) - w * (x * 2.0))
          + Sq(1.0 - (x * (x * 2.0) + y * (y * 2.0))) == 1.0
  {
    assert Sq(x * (z * 2.0) + w * (y * 2.0)) + Sq(y * (z * 2.0) - w * (x * 2.0)) == 4.0 * a * b;
    assert Sq(1.0 - (x * (x * 2.0) + y * (y * 2.0))) == Sq(1.0 - 2.0 * a);
  }

  // Rotation as quaternion conjugation, an independent definition of `Rotate`
  // that makes composition easy to prove.

  /** The quaternion with vector part `v` and scalar part zero. */
  function Pure(v: Vec3): Quat
  {
    Quat(v.x, v.y, v.z, 0.0)
  }

  /** The vector part `(x, y, z)` of a quaternion. */
  function VectorPart(q: Quat): Vec3
  {
    Vec3(q.x, q.y, q.z)
  }

  /** The rotation of `v` by `q` written as the product `q v q*`. */
  function Sandwich(q: Quat, v: Vec3): Vec3
  {
    VectorPart(Mul(Mul(q, Pure(v)), Conjugate(q)))
  }

  /** The x component of `q v q*`, with `a = q v`, equals the first row of the
      engine's rotation matrix when `q` is a unit quaternion. */
  lemma SandwichRowX(qx: real, qy: real, qz: real, qw: real, vx: real, vy: real, vz: real,
                     ax: real, ay: real, az: real, aw: real, r: real, m: real)
    requires ax == qw * vx + qy * vz - qz * vy && ay == qw * vy + qz * vx - qx * vz
    requires az == qw * vz + qx * vy - qy * vx && aw == -qx * vx - qy * vy - qz * vz
    requires r == aw * -qx + ax * qw + ay * -qz - az * -qy
    requires m == qx * qx + qy * qy + qz * qz + qw * qw && m == 1.0
    ensures r == (1.0 - (qy * (qy * 2.0) + qz * (qz * 2.0))) * vx
               + (qx * (qy * 2.0) - qw * (qz * 2.0)) * vy + (qx * (qz * 2.0) + qw * (qy * 2.0)) * vz
  {
    assert r == (qx * qx + qw * qw - qy * qy - qz * qz) * vx
              + (qx * qy * 2.0 - qw * qz * 2.0) * vy + (qx * qz * 2.0 + qw * qy * 2.0) * vz;
  }

  /** The y component, against the second row. */
  lemma SandwichRowY(qx: real, qy: real, qz: real, qw: real, vx: real, vy: real, vz: real,
                     ax: real, ay: real, az: real, aw: real, r: real, m: real)
    requires ax == qw * vx + qy * vz - qz * vy && ay == qw * vy + qz * vx - qx * vz
    requires az == qw * vz + qx * vy - qy * vx && aw == -qx * vx - qy * vy - qz * vz
    requires r == aw * -qy + ay * qw + az * -qx - ax * -qz
    requires m == qx * qx + qy * qy + qz * qz + qw * qw && m == 1.0
    ensures r == (qx * (qy * 2.0) + qw * (qz * 2.0)) * vx
               + (1.0 - (qx * (qx * 2.0) + qz * (qz * 2.0))) * vy + (qy * (qz * 2.0) - qw * (qx * 2.0)) * vz
  {
    assert r == (qx * qy * 2.0 + qw * qz * 2.0) * vx
              + (qy * qy + qw * qw - qx * qx - qz * qz) * vy + (qy * qz * 2.0 - qw * qx * 2.0) * vz;
  }

  /** The z component, against the third row. */
  lemma SandwichRowZ(qx: real, qy: real, qz: real, qw: real, vx: real, vy: real, vz: real,
                     ax: real, ay: real, az: real, aw: real, r: real, m: real)
    requires ax == qw * vx + qy * vz - qz * vy && ay == qw * vy + qz * vx - qx * vz
    requires az == qw * vz + qx * vy - qy * vx && aw == -qx * vx - qy * vy - qz * vz
    requires r == aw * -qz + az * qw + ax * -qy - ay * -qx
    requires m == qx * qx + qy * qy + qz * qz + qw * qw && m == 1.0
    ensures r == (qx * (qz * 2.0) - qw * (qy * 2.0)) * vx
               + (qy * (qz * 2.0) + qw * (qx * 2.0)) * vy + (1.0 - (qx * (qx * 2.0) + qy * (qy * 2.0))) * vz
  {
    assert r == (qx * qz * 2.0 - qw * qy * 2.0) * vx
              + (qy * qz * 2.0 + qw * qx * 2.0) * vy + (qz * qz + qw * qw - qx * qx - qy * qy) * vz;
  }

  /** The scalar part of `q v q*` is zero for every `q`. */
  lemma SandwichScalar(qx: real, qy: real, qz: real, qw: real, vx: real, vy: real, vz: real,
                       ax: real, ay: real, az: real, aw: real, r: real)
    requires ax == qw * vx + qy * vz - qz * vy && ay == qw * vy + qz * vx - qx * vz
    requires az == qw * vz + qx * vy - qy * vx && aw == -qx * vx - qy * vy - qz * vz
    requires r == aw * qw - ax * -qx - ay * -qy - az * -qz
    ensures r == 0.0
  {
  }

  /** For a unit `q`, the engine's rotation matrix is the product `q v q*`. */
  lemma RotateSandwich(q: Quat, v: Vec3)
    requires IsUnit(q)
    ensures Rotate(q, v) == Sandwich(q, v)
    ensures Mul(Mul(q, Pure(v)), Conjugate(q)) == Pure(Rotate(q, v))
  {
    var a := Mul(q, Pure(v));
    var b := Mul(a, Conjugate(q));
    var m := QSqrMagnitude(q);
    MulPure(q, v);
    MulConjugate(a, q);
    SandwichX(q, v, a, b, m);
    SandwichY(q, v, a, b, m);
    SandwichZ(q, v, a, b, m);
    SandwichW(q, v, a, b);
  }

  /** The scalar part of `q v q*`, with `a = q v` in coordinates, is zero. */
  lemma SandwichW(q: Quat, v: Vec3, a: Quat, b: Quat)
    requires a == Quat(q.w * v.x + q.y * v.z - q.z * v.y, q.w * v.y + q.z * v.x - q.x * v.z,
                       q.w * v.z + q.x * v.y - q.y * v.x, -q.x * v.x - q.y * v.y - q.z * v.z)
    requires b.w == a.w * q.w - a.x * -q.x - a.y * -q.y - a.z * -q.z
    ensures b.w == 0.0
  {
    SandwichScalar(q.x, q.y, q.z, q.w, v.x, v.y, v.z, a.x, a.y, a.z, a.w, b.w);
  }

  /** The x, y and z components of `q v q*` against the matrix rows, with
      `a = q v` and `b = a q*` given in coordinates. */
  lemma SandwichX(q: Quat, v: Vec3, a: Quat, b: Quat, m: real)
    requires a == Quat(q.w * v.x + q.y * v.z - q.z * v.y, q.w * v.y + q.z * v.x - q.x * v.z,
                       q.w * v.z + q.x * v.y - q.y * v.x, -q.x * v.x - q.y * v.y - q.z * v.z)
    requires b.x == a.w * -q.x + a.x * q.w + a.y * -q.z - a.z * -q.y
    requires m == QSqrMagnitude(q) && m == 1.0
    ensures b.x == Rotate(q, v).x
  {
    RotateRowX(q, v);
    SandwichRowX(q.x, q.y, q.z, q.w, v.x, v.y, v.z, a.x, a.y, a.z, a.w, b.x, m);
  }

  lemma SandwichY(q: Quat, v: Vec3, a: Quat, b: Quat, m: real)
    requires a == Quat(q.w * v.x + q.y * v.z - q.z * v.y, q.w * v.y + q.z * v.x - q.x * v.z,
                       q.w * v.z + q.x * v.y - q.y * v.x, -q.x * v.x - q.y * v.y - q.z * v.z)
    requires b.y == a.w * -q.y + a.y * q.w + a.z * -q.x - a.x * -q.z
    requires m == QSqrMagnitude(q) && m == 1.0
    ensures b.y == Rotate(q, v).y
  {
    RotateRowY(q, v);
    SandwichRowY(q.x, q.y, q.z, q.w, v.x, v.y, v.z, a.x, a.y, a.z, a.w, b.y, m);
  }

  lemma SandwichZ(q: Quat, v: Vec3, a: Quat, b: Quat, m: real)
    requires a == Quat(q.w * v.x + q.y * v.z - q.z * v.y, q.w * v.y + q.z * v.x - q.x * v.z,
                       q.w * v.z + q.x * v.y - q.y * v.x, -q.x * v.x - q.y * v.y - q.z * v.z)
    requires b.z == a.w * -q.z + a.z * q.w + a.x * -q.y - a.y * -q.x
    requires m == QSqrMagnitude(q) && m == 1.0
    ensures b.z == Rotate(q, v).z
  {
    RotateRowZ(q, v);
    SandwichRowZ(q.x, q.y, q.z, q.w, v.x, v.y, v.z, a.x, a.y, a.z, a.w, b.z, m);
  }

  /** `Mul` with a pure quaternion on the right, in coordinates. */
  lemma MulPure(q: Quat, v: Vec3)
    ensures Mul(q, Pure(v)) == Quat(q.w * v.x + q.y * v.z - q.z * v.y, q.w * v.y + q.z * v.x - q.x * v.z,
                                    q.w * v.z + q.x * v.y - q.y * v.x, -q.x * v.x - q.y * v.y - q.z * v.z)
  {
  }

  /** `Mul` with a conjugate on the right, in coordinates. */
  lemma MulConjugate(a: Quat, q: Quat)
    ensures Mul(a, Conjugate(q)) == Quat(a.w * -q.x + a.x * q.w + a.y * -q.z - a.z * -q.y,
                                         a.w * -q.y + a.y * q.w + a.z * -q.x - a.x * -q.z,
                                         a.w * -q.z + a.z * q.w + a.x * -q.y - a.y * -q.x,
                                         a.w * q.w - a.x * -q.x - a.y * -q.y - a.z * -q.z)
  {
  }

  /** Conjugation reverses a product. */
  lemma ConjugateMul(p: Quat, q: Quat)
    ensures Conjugate(Mul(p, q)) == Mul(Conjugate(q), Conjugate(p))
  {
    MulDef(p, q);
    MulDef(Conjugate(q), Conjugate(p));
  }

  /** Rotating by a product rotates by the right factor first. */
  lemma RotateMul(p: Quat, q: Quat, v: Vec3)
    requires IsUnit(p) && IsUnit(q)
    ensures Rotate(Mul(p, q), v) == Rotate(p, Rotate(q, v))
  {
    var pq := Mul(p, q);
    var cp := Conjugate(p);
    var cq := Conjugate(q);
    var a := Mul(q, Pure(v));
    var w := Rotate(q, v);
    MulUnit(p, q);
    RotateSandwich(pq, v);
    RotateSandwich(q, v);
    RotateSandwich(p, w);
    ConjugateMul(p, q);
    MulAssociative(p, q, Pure(v));
    MulAssociative(Mul(p, a), cq, cp);
    MulAssociative(p, a, cq);
    assert Mul(Mul(pq, Pure(v)), Conjugate(pq)) == Mul(Mul(Mul(p, a), cq), cp);
  }
}
