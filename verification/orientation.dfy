/** The `QuaternionExtensions` helpers of the vectors playground: a
    look-rotation built from an explicit orthonormal frame, the quaternion of a
    rotation matrix, the shortest-arc rotation between two directions, and the
    pair of helpers that turn a direction into an arrow's rotation and back. */
module QuaternionExtensions {
  import opened VectorMath

  /** The rotation block of a `Matrix4x4`, `mRC` being row R and column C.
      The fourth row and column built by `LookRotation` are those of the
      identity and are never read, so they are not represented. */
  datatype Mat3 = Mat3(m00: real, m01: real, m02: real,
                       m10: real, m11: real, m12: real,
                       m20: real, m21: real, m22: real)

  /** The frame `LookRotation` builds: its right, recomputed up and forward
      vectors, which become the matrix columns 0, 1 and 2. */
  datatype Basis = Basis(right: Vec3, up: Vec3, forward: Vec3)

  /** The four cases of `QuaternionFromMatrix`, in the order it tests them. */
  datatype MatrixBranch = TraceBranch | XBranch | YBranch | ZBranch

  /** Above this dot product the two directions count as the same. */
  const ParallelThreshold: real := 0.9999

  /** Below this magnitude `from x right` is too short to serve as an axis. */
  const AxisThreshold: real := 0.001

  // ------------------------------------------------------------ LookRotation

  /** The frame of `LookRotation`: forward normalised, right the normalised
      `up x forward`, and up recomputed as `forward x right`, on the same side
      as the requested up. Right is a unit vector exactly when `up x forward`
      is longer than `VectorEpsilon`, and zero otherwise. */
  function LookBasis(sqrt: real -> real, forward: Vec3, up: Vec3): (b: Basis)
    requires IsSqrt(sqrt)
    ensures b.forward == Normalize(sqrt, forward) && b.up == Cross(b.forward, b.right)
    ensures b.forward == Zero ==> b.right == Zero && b.up == Zero
    ensures Dot(b.right, b.forward) == 0.0 && Dot(b.right, up) == 0.0
    ensures Dot(b.up, b.forward) == 0.0 && Dot(b.up, b.right) == 0.0
    ensures b.right != Zero <==> Magnitude(sqrt, Cross(up, b.forward)) > VectorEpsilon
    ensures b.right != Zero ==> SqrMagnitude(b.right) == 1.0
    ensures b.forward != Zero && b.right != Zero ==>
              SqrMagnitude(b.forward) == 1.0 && SqrMagnitude(b.up) == 1.0
    ensures Dot(b.up, up) >= 0.0 && (b.right != Zero ==> Dot(b.up, up) > 0.0)
  {
    var f := Normalize(sqrt, forward);
    var c := Cross(up, f);
    var r := Normalize(sqrt, c);
    var b := Basis(r, Cross(f, r), f);
    NormalizedOrthogonal(sqrt, c, f);
    NormalizedOrthogonal(sqrt, c, up);
    UpSameSide(sqrt, f, up, c, b);
    if f != Zero && r != Zero then
      CrossOfOrthonormal(f, r);
      b
    else
      CrossZero(up);
      NormalizeZero(sqrt);
      b
  }

  /** A frame whose up vector is `f x right`, with `right` the normalised
      `up x f`, never has its up pointing away from the requested `up`, and
      leans strictly towards it whenever `right` is not zero. */
  lemma UpSameSide(sqrt: real -> real, f: Vec3, up: Vec3, c: Vec3, b: Basis)
    requires IsSqrt(sqrt) && c == Cross(up, f)
    requires b.right == Normalize(sqrt, c) && b.up == Cross(f, b.right)
    ensures Dot(b.up, up) >= 0.0
    ensures b.right != Zero ==> Dot(b.up, up) > 0.0
  {
    var r := b.right;
    var k :| k >= 0.0 && r == Scale(c, k);
    TripleProduct(f, r, up);
    ScaledSelfDot(c, k);
  }

  lemma CrossZero(a: Vec3)
    ensures Cross(a, Zero) == Zero
  {
  }

  /** The cross product of two orthogonal unit vectors is a unit vector. */
  lemma CrossOfOrthonormal(a: Vec3, b: Vec3)
    requires SqrMagnitude(a) == 1.0 && SqrMagnitude(b) == 1.0 && Dot(a, b) == 0.0
    ensures SqrMagnitude(Cross(a, b)) == 1.0
  {
    Lagrange(a, b);
    SqOfOne();
  }

  /** The matrix whose columns are the frame's right, up and forward. */
  function ColumnMatrix(b: Basis): Mat3
  {
    Mat3(b.right.x, b.up.x, b.forward.x,
         b.right.y, b.up.y, b.forward.y,
         b.right.z, b.up.z, b.forward.z)
  }

  /** `LookRotation(forward, up)`. */
  function LookRotation(sqrt: real -> real, forward: Vec3, up: Vec3): (q: Quat)
    requires IsSqrt(sqrt)
    ensures IsUnit(q)
  {
    QuaternionFromMatrix(sqrt, ColumnMatrix(LookBasis(sqrt, forward, up)))
  }

  /** `LookRotation(forward, up)` turns the forward axis onto the normalised
      `forward`, whatever `up` is, even when `up` is parallel to `forward`;
      for a (nearly) zero `forward` the matrix is zero and the rotation
      leaves the forward axis where it is. */
  lemma LookForward(sqrt: real -> real, forward: Vec3, up: Vec3)
    requires IsSqrt(sqrt)
    ensures Rotate(LookRotation(sqrt, forward, up), Forward)
         == (if Normalize(sqrt, forward) == Zero then Forward else Normalize(sqrt, forward))
  {
    if Normalize(sqrt, forward) == Zero {
      ZeroLookForward(sqrt, forward, up);
    } else {
      UnitLookForward(sqrt, forward, up);
    }
  }

  lemma ZeroLookForward(sqrt: real -> real, forward: Vec3, up: Vec3)
    requires IsSqrt(sqrt) && Normalize(sqrt, forward) == Zero
    ensures Rotate(LookRotation(sqrt, forward, up), Forward) == Forward
  {
    ZeroLookBasis(sqrt, forward, up);
    ZeroMatrixForward(sqrt);
  }

  lemma ZeroLookBasis(sqrt: real -> real, forward: Vec3, up: Vec3)
    requires IsSqrt(sqrt) && Normalize(sqrt, forward) == Zero
    ensures LookBasis(sqrt, forward, up) == Basis(Zero, Zero, Zero)
  {
  }

  /** The zero matrix gives a rotation that leaves the forward axis fixed. */
  lemma ZeroMatrixForward(sqrt: real -> real)
    requires IsSqrt(sqrt)
    ensures Rotate(QuaternionFromMatrix(sqrt, ColumnMatrix(Basis(Zero, Zero, Zero))), Forward) == Forward
  {
    ZeroFrameNumerators();
    IdentityRelations();
    MatrixForward(sqrt, ColumnMatrix(Basis(Zero, Zero, Zero)), Forward);
  }

  lemma UnitLookForward(sqrt: real -> real, forward: Vec3, up: Vec3)
    requires IsSqrt(sqrt) && Normalize(sqrt, forward) != Zero
    ensures Rotate(LookRotation(sqrt, forward, up), Forward) == Normalize(sqrt, forward)
  {
    var b := LookBasis(sqrt, forward, up);
    var m := ColumnMatrix(b);
    assert b == Basis(b.right, Cross(b.forward, b.right), b.forward);
    FrameNumerators(SelectBranch(m), b.right, b.forward);
    MatrixForward(sqrt, m, b.forward);
  }

  /** When the numerators of the case `QuaternionFromMatrix` takes meet the
      forward relations for `f`, its quaternion carries the forward axis onto
      `f`. */
  lemma MatrixForward(sqrt: real -> real, m: Mat3, f: Vec3)
    requires IsSqrt(sqrt)
    requires ForwardRelations(Numerators(m, SelectBranch(m)), f)
    ensures Rotate(QuaternionFromMatrix(sqrt, m), Forward) == f
  {
    var br := SelectBranch(m);
    var p := MatrixQuaternion(sqrt, m);
    var c := 4.0 * Selected(p, br);
    CaseMultiple(sqrt, m);
    assert c != 0.0 && QScale(p, c) == Numerators(m, br);
    var q := QuaternionFromMatrix(sqrt, m);
    var k :| k > 0.0 && q == QScale(p, k);
    UnitMultipleForward(Numerators(m, br), p, q, c, k, f);
  }

  /** The case's numerators are a non-zero multiple of the quaternion
      `QuaternionFromMatrix` normalises. */
  lemma CaseMultiple(sqrt: real -> real, m: Mat3)
    requires IsSqrt(sqrt)
    ensures var p := MatrixQuaternion(sqrt, m);
            var c := 4.0 * Selected(p, SelectBranch(m));
            c != 0.0 && QScale(p, c) == Numerators(m, SelectBranch(m))
  {
  }

  /** A unit quaternion that is a multiple of `p`, itself a multiple of
      numerators meeting the forward relations for `f`, carries the forward
      axis onto `f`. */
  lemma UnitMultipleForward(l: Quat, p: Quat, q: Quat, c: real, k: real, f: Vec3)
    requires c != 0.0 && QScale(p, c) == l && q == QScale(p, k) && IsUnit(q)
    requires ForwardRelations(l, f)
    ensures Rotate(q, Forward) == f
  {
    ScaleThrough(p, c, k);
    ForwardFromRelations(l, k / c, f);
  }

  /** `QScale(p, k)` is `QScale(p, c)` scaled by `k / c`. */
  lemma ScaleThrough(p: Quat, c: real, k: real)
    requires c != 0.0
    ensures QScale(p, k) == QScale(QScale(p, c), k / c)
  {
    ScaleThroughComponent(p.x, c, k);
    ScaleThroughComponent(p.y, c, k);
    ScaleThroughComponent(p.z, c, k);
    ScaleThroughComponent(p.w, c, k);
  }

  lemma ScaleThroughComponent(a: real, c: real, k: real)
    requires c != 0.0
    ensures a * k == (a * c) * (k / c)
  {
  }

  /** The zero matrix takes the z case, whose numerators are (0, 0, 1, 0):
      the quaternion of the identity rotation. */
  lemma ZeroFrameNumerators()
    ensures var m := ColumnMatrix(Basis(Zero, Zero, Zero));
            Numerators(m, SelectBranch(m)) == Quat(0.0, 0.0, 1.0, 0.0)
  {
    ZeroMatrixBranch(ColumnMatrix(Basis(Zero, Zero, Zero)));
  }

  lemma ZeroMatrixBranch(m: Mat3)
    requires m == Mat3(0.0, 0.0, 0.0, 0.0, 0.0, 0.0, 0.0, 0.0, 0.0)
    ensures SelectBranch(m) == ZBranch && Numerators(m, ZBranch) == Quat(0.0, 0.0, 1.0, 0.0)
  {
  }

  /** The identity's numerators meet the forward relations for the forward
      axis. */
  lemma IdentityRelations()
    ensures ForwardRelations(Quat(0.0, 0.0, 1.0, 0.0), Forward)
  {
  }

  // ---------------------------------------------------- QuaternionFromMatrix

  function Trace(m: Mat3): real
  {
    m.m00 + m.m11 + m.m22
  }

  /** The case `QuaternionFromMatrix` takes: the trace case when the trace is
      positive, and otherwise the case of the largest diagonal entry, ties
      going to the later entry. */
  function SelectBranch(m: Mat3): (b: MatrixBranch)
    ensures b == TraceBranch <==> Trace(m) > 0.0
    ensures b == XBranch ==> m.m00 > m.m11 && m.m00 > m.m22
    ensures b == YBranch ==> m.m11 >= m.m00 && m.m11 > m.m22
    ensures b == ZBranch ==> m.m22 >= m.m00 && m.m22 >= m.m11
  {
    if Trace(m) > 0.0 then TraceBranch
    else if m.m00 > m.m11 && m.m00 > m.m22 then XBranch
    else if m.m11 > m.m22 then YBranch
    else ZBranch
  }

  /** The argument of the square root in the selected case: one plus the
      trace, or one plus the largest diagonal entry minus the other two. */
  function Radicand(m: Mat3): (r: real)
    ensures r >= 1.0
  {
    match SelectBranch(m)
    case TraceBranch => Trace(m) + 1.0
    case XBranch => 1.0 + m.m00 - m.m11 - m.m22
    case YBranch => 1.0 + m.m11 - m.m00 - m.m22
    case ZBranch => 1.0 + m.m22 - m.m00 - m.m11
  }

  /** Four times the selected component times the case's quaternion: the
      numerators the case divides by `s`, with the radicand in the selected
      place. */
  function Numerators(m: Mat3, b: MatrixBranch): Quat
  {
    match b
    case TraceBranch => Quat(m.m21 - m.m12, m.m02 - m.m20, m.m10 - m.m01, Trace(m) + 1.0)
    case XBranch => Quat(1.0 + m.m00 - m.m11 - m.m22, m.m01 + m.m10, m.m02 + m.m20, m.m21 - m.m12)
    case YBranch => Quat(m.m01 + m.m10, 1.0 + m.m11 - m.m00 - m.m22, m.m12 + m.m21, m.m02 - m.m20)
    case ZBranch => Quat(m.m02 + m.m20, m.m12 + m.m21, 1.0 + m.m22 - m.m00 - m.m11, m.m10 - m.m01)
  }

  /** The quaternion `QuaternionFromMatrix` builds, before it is normalised: scaled by four
      times its selected component it gives back the case's numerators, and
      its selected component is at least one half. */
  function MatrixQuaternion(sqrt: real -> real, m: Mat3): (q: Quat)
    requires IsSqrt(sqrt)
    ensures QScale(q, 4.0 * Selected(q, SelectBranch(m))) == Numerators(m, SelectBranch(m))
    ensures Selected(q, SelectBranch(m)) >= 0.5
  {
    var b := SelectBranch(m);
    CaseQuaternion(Numerators(m, b), b, HalfScale(sqrt, Radicand(m)))
  }

  /** One of the four cases of `QuaternionFromMatrix`: the selected component is a quarter of `s`
      and every other component is its numerator divided by `s`. */
  function CaseQuaternion(l: Quat, b: MatrixBranch, s: real): (q: Quat)
    requires s >= 2.0 && Sq(0.25 * s) * 4.0 == Selected(l, b)
    ensures QScale(q, 4.0 * Selected(q, b)) == l
    ensures Selected(q, b) == 0.25 * s
  {
    QuarterScale(s, l.x, l.y, l.z, l.w);
    match b
    case TraceBranch => Quat(l.x / s, l.y / s, l.z / s, 0.25 * s)
    case XBranch => Quat(0.25 * s, l.y / s, l.z / s, l.w / s)
    case YBranch => Quat(l.x / s, 0.25 * s, l.z / s, l.w / s)
    case ZBranch => Quat(l.x / s, l.y / s, 0.25 * s, l.w / s)
  }

  /** Dividing by `s` and multiplying by four quarters of `s` cancel, and a
      quarter of `s` times four quarters of `s` is four times its square. */
  lemma QuarterScale(s: real, a: real, b: real, c: real, d: real)
    requires s >= 2.0
    ensures (a / s) * (4.0 * (0.25 * s)) == a && (b / s) * (4.0 * (0.25 * s)) == b
    ensures (c / s) * (4.0 * (0.25 * s)) == c && (d / s) * (4.0 * (0.25 * s)) == d
    ensures (0.25 * s) * (4.0 * (0.25 * s)) == Sq(0.25 * s) * 4.0
  {
  }

  /** The component a case computes directly as a quarter of `s`. */
  function Selected(q: Quat, b: MatrixBranch): real
  {
    match b
    case TraceBranch => q.w
    case XBranch => q.x
    case YBranch => q.y
    case ZBranch => q.z
  }

  /** `Mathf.Sqrt(radicand) * 2`, the divisor `s` of every case: at least 2
      whenever the radicand is at least 1, so every division is defined. */
  function HalfScale(sqrt: real -> real, radicand: real): (s: real)
    requires IsSqrt(sqrt) && radicand >= 1.0
    ensures s >= 2.0
    ensures Sq(0.25 * s) * 4.0 == radicand
  {
    SqOfOne();
    SqrtAtLeast(sqrt, radicand, 1.0);
    var s := sqrt(radicand) * 2.0;
    assert Sq(0.25 * s) == Sq(sqrt(radicand)) / 4.0;
    s
  }

  /** `QuaternionFromMatrix`: the case's quaternion, normalised. Its selected
      component is positive, so normalising never falls back to the identity
      and keeps the quaternion's direction. */
  function QuaternionFromMatrix(sqrt: real -> real, m: Mat3): (q: Quat)
    requires IsSqrt(sqrt)
    ensures IsUnit(q)
    ensures exists k: real {:trigger QScale(MatrixQuaternion(sqrt, m), k)} ::
              k > 0.0 && q == QScale(MatrixQuaternion(sqrt, m), k)
    ensures Selected(q, SelectBranch(m)) > 0.0
  {
    var raw := MatrixQuaternion(sqrt, m);
    var q := QNormalize(sqrt, raw);
    NormalizeKeepsDirection(sqrt, raw, Selected(raw, SelectBranch(m)));
    var k: real :| k > 0.0 && q == QScale(raw, k);
    ScaledSelected(raw, k, SelectBranch(m));
    q
  }

  /** Scaling by a positive factor keeps a positive component positive. */
  lemma ScaledSelected(q: Quat, k: real, b: MatrixBranch)
    requires k > 0.0 && Selected(q, b) > 0.0
    ensures Selected(QScale(q, k), b) > 0.0
  {
    ProdPositive(Selected(q, b), k);
  }

  /** A quaternion with a component above `Mathf.Epsilon` is normalised by a
      positive scale factor. */
  lemma NormalizeKeepsDirection(sqrt: real -> real, q: Quat, c: real)
    requires IsSqrt(sqrt) && c > FloatEpsilon
    requires c == q.x || c == q.y || c == q.z || c == q.w
    ensures exists k: real {:trigger QScale(q, k)} :: k > 0.0 && QNormalize(sqrt, q) == QScale(q, k)
  {
    SqNonNegative(q.x);
    SqNonNegative(q.y);
    SqNonNegative(q.z);
    SqNonNegative(q.w);
    SqStrictlyIncreasing(FloatEpsilon, c);
    assert Sq(c) <= QSqrMagnitude(q);
    SqrtAtLeast(sqrt, QSqrMagnitude(q), FloatEpsilon);
    var r := QNormalize(sqrt, q);
  }

  /** For a frame (r, f x r, f) with f a unit vector orthogonal to r, every
      case's numerators satisfy the relations that make the normalised case
      quaternion carry the forward axis onto f. They hold whether r is a unit
      vector or zero. */
  lemma FrameNumerators(b: MatrixBranch, r: Vec3, f: Vec3)
    requires Dot(r, f) == 0.0 && SqrMagnitude(f) == 1.0
    ensures ForwardRelations(Numerators(ColumnMatrix(Basis(r, Cross(f, r), f)), b), f)
  {
    match b
    case TraceBranch =>
      TraceNumerators(r, f);
      TraceRelations(r, f);
    case XBranch =>
      XNumerators(r, f);
      XRelations(r, f);
    case YBranch =>
      YNumerators(r, f);
      YRelations(r, f);
    case ZBranch =>
      ZNumerators(r, f);
      ZRelations(r, f);
  }

  /** The relations between numerators `l` and a direction `f` under which
      the normalised quaternion along `l` carries the forward axis onto `f`. */
  ghost predicate ForwardRelations(l: Quat, f: Vec3)
  {
    var n := l.x * l.x + l.y * l.y + l.z * l.z + l.w * l.w;
    && 2.0 * (l.x * l.z + l.w * l.y) == f.x * n
    && 2.0 * (l.y * l.z - l.w * l.x) == f.y * n
    && l.w * l.w + l.z * l.z - l.x * l.x - l.y * l.y == f.z * n
  }

  /** The numerators of the trace case for the frame (r, f x r, f), as
      polynomials in the components of r and f. */
  function TraceFrame(r: Vec3, f: Vec3): Quat
  {
    Quat(-r.x*f.y + r.y*f.x - f.y,
         -r.z + f.x,
         r.y*f.z + r.y - r.z*f.y,
         r.x*f.z + r.x - r.z*f.x + f.z + 1.0)
  }

  lemma TraceNumerators(r: Vec3, f: Vec3)
    ensures Numerators(ColumnMatrix(Basis(r, Cross(f, r), f)), TraceBranch) == TraceFrame(r, f)
  {
  }

  lemma TraceRelations(r: Vec3, f: Vec3)
    requires Dot(r, f) == 0.0 && SqrMagnitude(f) == 1.0
    ensures ForwardRelations(TraceFrame(r, f), f)
  {
    var l := TraceFrame(r, f);
    assert l == Quat(l.x, l.y, l.z, l.w) && f == Vec3(f.x, f.y, f.z);
    TraceScalarRelations(r.x, r.y, r.z, f.x, f.y, f.z, l.x, l.y, l.z, l.w);
  }

  lemma TraceScalarRelations(rx: real, ry: real, rz: real, fx: real, fy: real, fz: real,
                        lx: real, ly: real, lz: real, lw: real)
    requires rx * fx + ry * fy + rz * fz == 0.0 && fx * fx + fy * fy + fz * fz == 1.0
    requires lx == -rx*fy + ry*fx - fy
    requires ly == -rz + fx
    requires lz == ry*fz + ry - rz*fy
    requires lw == rx*fz + rx - rz*fx + fz + 1.0
    ensures ForwardRelations(Quat(lx, ly, lz, lw), Vec3(fx, fy, fz))
  {
    TraceCertificate(rx, ry, rz, fx, fy, fz, lx, ly, lz, lw, 0.0, 0.0);
  }

  lemma TraceCertificate(rx: real, ry: real, rz: real, fx: real, fy: real, fz: real,
                        lx: real, ly: real, lz: real, lw: real, g2: real, g3: real)
    requires g2 == fx * fx + fy * fy + fz * fz - 1.0 && g3 == rx * fx + ry * fy + rz * fz
    requires lx == -rx*fy + ry*fx - fy
    requires ly == -rz + fx
    requires lz == ry*fz + ry - rz*fy
    requires lw == rx*fz + rx - rz*fx + fz + 1.0
    ensures 2.0 * (lx * lz + lw * ly) - fx * (lx * lx + ly * ly + lz * lz + lw * lw)
         == (rx*ry*fy + rx*rz*fz + 2.0*rx*rz - ry*ry*fx + 2.0*ry*fy - rz*rz*fx + 2.0*rz*fz + 2.0*rz - fx) * g2
          + (-rx*fy*fy - rx*fz*fz - 2.0*rx*fz - rx + ry*fx*fy + rz*fx*fz - 2.0*fy*fy - 2.0*fz*fz - 2.0*fz) * g3
    ensures 2.0 * (ly * lz - lw * lx) - fy * (lx * lx + ly * ly + lz * lz + lw * lw)
         == (-rx*rx*fy - 2.0*rx*fy - ry*ry*fy + 2.0*ry*rz - rz*rz*fy - fy) * g2
          + (rx*fx*fy + ry*fy*fy - 2.0*ry*fz - 2.0*ry + rz*fy*fz + 2.0*fx*fy) * g3
    ensures lw * lw + lz * lz - lx * lx - ly * ly - fz * (lx * lx + ly * ly + lz * lz + lw * lw)
         == (-rx*rx*fz - rx*rx - 2.0*rx*fz - 2.0*rx - ry*ry*fz - ry*ry - rz*rz*fz + rz*rz - fz - 1.0) * g2
          + (rx*fx*fz + rx*fx + ry*fy*fz + ry*fy + rz*fz*fz - rz*fz - 2.0*rz + 2.0*fx*fz + 2.0*fx) * g3
  {
  }

  /** The numerators of the x case for the frame (r, f x r, f), as
      polynomials in the components of r and f. */
  function XFrame(r: Vec3, f: Vec3): Quat
  {
    Quat(-r.x*f.z + r.x + r.z*f.x - f.z + 1.0,
         -r.y*f.z + r.y + r.z*f.y,
         r.z + f.x,
         -r.x*f.y + r.y*f.x - f.y)
  }

  lemma XNumerators(r: Vec3, f: Vec3)
    ensures Numerators(ColumnMatrix(Basis(r, Cross(f, r), f)), XBranch) == XFrame(r, f)
  {
  }

  lemma XRelations(r: Vec3, f: Vec3)
    requires Dot(r, f) == 0.0 && SqrMagnitude(f) == 1.0
    ensures ForwardRelations(XFrame(r, f), f)
  {
    var l := XFrame(r, f);
    assert l == Quat(l.x, l.y, l.z, l.w) && f == Vec3(f.x, f.y, f.z);
    XScalarRelations(r.x, r.y, r.z, f.x, f.y, f.z, l.x, l.y, l.z, l.w);
  }

  lemma XScalarRelations(rx: real, ry: real, rz: real, fx: real, fy: real, fz: real,
                        lx: real, ly: real, lz: real, lw: real)
    requires rx * fx + ry * fy + rz * fz == 0.0 && fx * fx + fy * fy + fz * fz == 1.0
    requires lx == -rx*fz + rx + rz*fx - fz + 1.0
    requires ly == -ry*fz + ry + rz*fy
    requires lz == rz + fx
    requires lw == -rx*fy + ry*fx - fy
    ensures ForwardRelations(Quat(lx, ly, lz, lw), Vec3(fx, fy, fz))
  {
    XCertificate(rx, ry, rz, fx, fy, fz, lx, ly, lz, lw, 0.0, 0.0);
  }

  lemma XCertificate(rx: real, ry: real, rz: real, fx: real, fy: real, fz: real,
                        lx: real, ly: real, lz: real, lw: real, g2: real, g3: real)
    requires g2 == fx * fx + fy * fy + fz * fz - 1.0 && g3 == rx * fx + ry * fy + rz * fz
    requires lx == -rx*fz + rx + rz*fx - fz + 1.0
    requires ly == -ry*fz + ry + rz*fy
    requires lz == rz + fx
    requires lw == -rx*fy + ry*fx - fy
    ensures 2.0 * (lx * lz + lw * ly) - fx * (lx * lx + ly * ly + lz * lz + lw * lw)
         == (rx*ry*fy + rx*rz*fz - 2.0*rx*rz - ry*ry*fx + 2.0*ry*fy - rz*rz*fx + 2.0*rz*fz - 2.0*rz - fx) * g2
          + (-rx*fy*fy - rx*fz*fz + 2.0*rx*fz - rx + ry*fx*fy + rz*fx*fz - 2.0*fy*fy - 2.0*fz*fz + 2.0*fz) * g3
    ensures 2.0 * (ly * lz - lw * lx) - fy * (lx * lx + ly * ly + lz * lz + lw * lw)
         == (-rx*rx*fy - 2.0*rx*fy - ry*ry*fy - 2.0*ry*rz - rz*rz*fy - fy) * g2
          + (rx*fx*fy + ry*fy*fy + 2.0*ry*fz - 2.0*ry + rz*fy*fz + 2.0*fx*fy) * g3
    ensures lw * lw + lz * lz - lx * lx - ly * ly - fz * (lx * lx + ly * ly + lz * lz + lw * lw)
         == (-rx*rx*fz + rx*rx - 2.0*rx*fz + 2.0*rx - ry*ry*fz + ry*ry - rz*rz*fz - rz*rz - fz + 1.0) * g2
          + (rx*fx*fz - rx*fx + ry*fy*fz - ry*fy + rz*fz*fz + rz*fz - 2.0*rz + 2.0*fx*fz - 2.0*fx) * g3
  {
  }

  /** The numerators of the y case for the frame (r, f x r, f), as
      polynomials in the components of r and f. */
  function YFrame(r: Vec3, f: Vec3): Quat
  {
    Quat(-r.y*f.z + r.y + r.z*f.y,
         r.x*f.z - r.x - r.z*f.x - f.z + 1.0,
         -r.x*f.y + r.y*f.x + f.y,
         -r.z + f.x)
  }

  lemma YNumerators(r: Vec3, f: Vec3)
    ensures Numerators(ColumnMatrix(Basis(r, Cross(f, r), f)), YBranch) == YFrame(r, f)
  {
  }

  lemma YRelations(r: Vec3, f: Vec3)
    requires Dot(r, f) == 0.0 && SqrMagnitude(f) == 1.0
    ensures ForwardRelations(YFrame(r, f), f)
  {
    var l := YFrame(r, f);
    assert l == Quat(l.x, l.y, l.z, l.w) && f == Vec3(f.x, f.y, f.z);
    YScalarRelations(r.x, r.y, r.z, f.x, f.y, f.z, l.x, l.y, l.z, l.w);
  }

  lemma YScalarRelations(rx: real, ry: real, rz: real, fx: real, fy: real, fz: real,
                        lx: real, ly: real, lz: real, lw: real)
    requires rx * fx + ry * fy + rz * fz == 0.0 && fx * fx + fy * fy + fz * fz == 1.0
    requires lx == -ry*fz + ry + rz*fy
    requires ly == rx*fz - rx - rz*fx - fz + 1.0
    requires lz == -rx*fy + ry*fx + fy
    requires lw == -rz + fx
    ensures ForwardRelations(Quat(lx, ly, lz, lw), Vec3(fx, fy, fz))
  {
    YCertificate(rx, ry, rz, fx, fy, fz, lx, ly, lz, lw, 0.0, 0.0);
  }

  lemma YCertificate(rx: real, ry: real, rz: real, fx: real, fy: real, fz: real,
                        lx: real, ly: real, lz: real, lw: real, g2: real, g3: real)
    requires g2 == fx * fx + fy * fy + fz * fz - 1.0 && g3 == rx * fx + ry * fy + rz * fz
    requires lx == -ry*fz + ry + rz*fy
    requires ly == rx*fz - rx - rz*fx - fz + 1.0
    requires lz == -rx*fy + ry*fx + fy
    requires lw == -rz + fx
    ensures 2.0 * (lx * lz + lw * ly) - fx * (lx * lx + ly * ly + lz * lz + lw * lw)
         == (rx*ry*fy + rx*rz*fz - 2.0*rx*rz - ry*ry*fx - 2.0*ry*fy - rz*rz*fx - 2.0*rz*fz + 2.0*rz - fx) * g2
          + (-rx*fy*fy - rx*fz*fz + 2.0*rx*fz - rx + ry*fx*fy + rz*fx*fz + 2.0*fy*fy + 2.0*fz*fz - 2.0*fz) * g3
    ensures 2.0 * (ly * lz - lw * lx) - fy * (lx * lx + ly * ly + lz * lz + lw * lw)
         == (-rx*rx*fy + 2.0*rx*fy - ry*ry*fy - 2.0*ry*rz - rz*rz*fy - fy) * g2
          + (rx*fx*fy + ry*fy*fy + 2.0*ry*fz - 2.0*ry + rz*fy*fz - 2.0*fx*fy) * g3
    ensures lw * lw + lz * lz - lx * lx - ly * ly - fz * (lx * lx + ly * ly + lz * lz + lw * lw)
         == (-rx*rx*fz + rx*rx + 2.0*rx*fz - 2.0*rx - ry*ry*fz + ry*ry - rz*rz*fz - rz*rz - fz + 1.0) * g2
          + (rx*fx*fz - rx*fx + ry*fy*fz - ry*fy + rz*fz*fz + rz*fz - 2.0*rz - 2.0*fx*fz + 2.0*fx) * g3
  {
  }

  /** The numerators of the z case for the frame (r, f x r, f), as
      polynomials in the components of r and f. */
  function ZFrame(r: Vec3, f: Vec3): Quat
  {
    Quat(r.z + f.x,
         -r.x*f.y + r.y*f.x + f.y,
         -r.x*f.z - r.x + r.z*f.x + f.z + 1.0,
         r.y*f.z + r.y - r.z*f.y)
  }

  lemma ZNumerators(r: Vec3, f: Vec3)
    ensures Numerators(ColumnMatrix(Basis(r, Cross(f, r), f)), ZBranch) == ZFrame(r, f)
  {
  }

  lemma ZRelations(r: Vec3, f: Vec3)
    requires Dot(r, f) == 0.0 && SqrMagnitude(f) == 1.0
    ensures ForwardRelations(ZFrame(r, f), f)
  {
    var l := ZFrame(r, f);
    assert l == Quat(l.x, l.y, l.z, l.w) && f == Vec3(f.x, f.y, f.z);
    ZScalarRelations(r.x, r.y, r.z, f.x, f.y, f.z, l.x, l.y, l.z, l.w);
  }

  lemma ZScalarRelations(rx: real, ry: real, rz: real, fx: real, fy: real, fz: real,
                        lx: real, ly: real, lz: real, lw: real)
    requires rx * fx + ry * fy + rz * fz == 0.0 && fx * fx + fy * fy + fz * fz == 1.0
    requires lx == rz + fx
    requires ly == -rx*fy + ry*fx + fy
    requires lz == -rx*fz - rx + rz*fx + fz + 1.0
    requires lw == ry*fz + ry - rz*fy
    ensures ForwardRelations(Quat(lx, ly, lz, lw), Vec3(fx, fy, fz))
  {
    ZCertificate(rx, ry, rz, fx, fy, fz, lx, ly, lz, lw, 0.0, 0.0);
  }

  lemma ZCertificate(rx: real, ry: real, rz: real, fx: real, fy: real, fz: real,
                        lx: real, ly: real, lz: real, lw: real, g2: real, g3: real)
    requires g2 == fx * fx + fy * fy + fz * fz - 1.0 && g3 == rx * fx + ry * fy + rz * fz
    requires lx == rz + fx
    requires ly == -rx*fy + ry*fx + fy
    requires lz == -rx*fz - rx + rz*fx + fz + 1.0
    requires lw == ry*fz + ry - rz*fy
    ensures 2.0 * (lx * lz + lw * ly) - fx * (lx * lx + ly * ly + lz * lz + lw * lw)
         == (rx*ry*fy + rx*rz*fz + 2.0*rx*rz - ry*ry*fx - 2.0*ry*fy - rz*rz*fx - 2.0*rz*fz - 2.0*rz - fx) * g2
          + (-rx*fy*fy - rx*fz*fz - 2.0*rx*fz - rx + ry*fx*fy + rz*fx*fz + 2.0*fy*fy + 2.0*fz*fz + 2.0*fz) * g3
    ensures 2.0 * (ly * lz - lw * lx) - fy * (lx * lx + ly * ly + lz * lz + lw * lw)
         == (-rx*rx*fy + 2.0*rx*fy - ry*ry*fy + 2.0*ry*rz - rz*rz*fy - fy) * g2
          + (rx*fx*fy + ry*fy*fy - 2.0*ry*fz - 2.0*ry + rz*fy*fz - 2.0*fx*fy) * g3
    ensures lw * lw + lz * lz - lx * lx - ly * ly - fz * (lx * lx + ly * ly + lz * lz + lw * lw)
         == (-rx*rx*fz - rx*rx + 2.0*rx*fz + 2.0*rx - ry*ry*fz - ry*ry - rz*rz*fz + rz*rz - fz - 1.0) * g2
          + (rx*fx*fz + rx*fx + ry*fy*fz + ry*fy + rz*fz*fz - rz*fz - 2.0*rz - 2.0*fx*fz - 2.0*fx) * g3
  {
  }

  /** Any unit multiple of a quaternion that meets the forward relations for
      `f` carries the forward axis onto `f`. */
  lemma ForwardFromRelations(l: Quat, t: real, f: Vec3)
    requires ForwardRelations(l, f)
    requires IsUnit(QScale(l, t))
    ensures Rotate(QScale(l, t), Forward) == f
  {
    assert l == Quat(l.x, l.y, l.z, l.w) && f == Vec3(f.x, f.y, f.z);
    ForwardFromComponents(l.x, l.y, l.z, l.w, t, f.x, f.y, f.z);
  }

  lemma ForwardFromComponents(lx: real, ly: real, lz: real, lw: real, t: real, fx: real, fy: real, fz: real)
    requires ForwardRelations(Quat(lx, ly, lz, lw), Vec3(fx, fy, fz))
    requires IsUnit(QScale(Quat(lx, ly, lz, lw), t))
    ensures Rotate(QScale(Quat(lx, ly, lz, lw), t), Forward) == Vec3(fx, fy, fz)
  {
    UnitFactor(lx, ly, lz, lw, t);
    ColumnX(lx, ly, lz, lw, t, fx, fy, fz);
    ColumnY(lx, ly, lz, lw, t, fx, fy, fz);
    ColumnZ(lx, ly, lz, lw, t, fx, fy, fz);
  }

  lemma ColumnX(lx: real, ly: real, lz: real, lw: real, t: real, fx: real, fy: real, fz: real)
    requires t * t * (lx * lx + ly * ly + lz * lz + lw * lw) == 1.0
    requires ForwardRelations(Quat(lx, ly, lz, lw), Vec3(fx, fy, fz))
    ensures Rotate(QScale(Quat(lx, ly, lz, lw), t), Forward).x == fx
  {
    RotateForward(QScale(Quat(lx, ly, lz, lw), t));
    RelationX(lx, ly, lz, lw, fx, fy, fz);
    ForwardX(lx, ly, lz, lw, t, fx);
  }

  lemma ColumnY(lx: real, ly: real, lz: real, lw: real, t: real, fx: real, fy: real, fz: real)
    requires t * t * (lx * lx + ly * ly + lz * lz + lw * lw) == 1.0
    requires ForwardRelations(Quat(lx, ly, lz, lw), Vec3(fx, fy, fz))
    ensures Rotate(QScale(Quat(lx, ly, lz, lw), t), Forward).y == fy
  {
    RotateForward(QScale(Quat(lx, ly, lz, lw), t));
    RelationY(lx, ly, lz, lw, fx, fy, fz);
    ForwardY(lx, ly, lz, lw, t, fy);
  }

  lemma ColumnZ(lx: real, ly: real, lz: real, lw: real, t: real, fx: real, fy: real, fz: real)
    requires t * t * (lx * lx + ly * ly + lz * lz + lw * lw) == 1.0
    requires ForwardRelations(Quat(lx, ly, lz, lw), Vec3(fx, fy, fz))
    ensures Rotate(QScale(Quat(lx, ly, lz, lw), t), Forward).z == fz
  {
    RotateForward(QScale(Quat(lx, ly, lz, lw), t));
    RelationZ(lx, ly, lz, lw, fx, fy, fz);
    ForwardZ(lx, ly, lz, lw, t, fz);
  }

  lemma RelationX(lx: real, ly: real, lz: real, lw: real, fx: real, fy: real, fz: real)
    requires ForwardRelations(Quat(lx, ly, lz, lw), Vec3(fx, fy, fz))
    ensures 2.0 * (lx * lz + lw * ly) == fx * (lx * lx + ly * ly + lz * lz + lw * lw)
  {
  }

  lemma RelationY(lx: real, ly: real, lz: real, lw: real, fx: real, fy: real, fz: real)
    requires ForwardRelations(Quat(lx, ly, lz, lw), Vec3(fx, fy, fz))
    ensures 2.0 * (ly * lz - lw * lx) == fy * (lx * lx + ly * ly + lz * lz + lw * lw)
  {
  }

  lemma RelationZ(lx: real, ly: real, lz: real, lw: real, fx: real, fy: real, fz: real)
    requires ForwardRelations(Quat(lx, ly, lz, lw), Vec3(fx, fy, fz))
    ensures lw * lw + lz * lz - lx * lx - ly * ly == fz * (lx * lx + ly * ly + lz * lz + lw * lw)
  {
  }

  /** The forward axis turned by `q` is the third column of `q`'s matrix. */
  lemma RotateForward(q: Quat)
    ensures Rotate(q, Forward)
         == Vec3(q.x * (q.z * 2.0) + q.w * (q.y * 2.0),
                 q.y * (q.z * 2.0) - q.w * (q.x * 2.0),
                 1.0 - (q.x * (q.x * 2.0) + q.y * (q.y * 2.0)))
  {
  }

  /** A unit quaternion turns the forward axis into a unit vector. */
  lemma RotateForwardUnit(q: Quat)
    requires IsUnit(q)
    ensures SqrMagnitude(Rotate(q, Forward)) == 1.0
  {
    RotateForward(q);
    var v := Rotate(q, Forward);
    SqrMagnitudeOf(v);
    UnitForwardLength(q.x, q.y, q.z, q.w, q.x * q.x + q.y * q.y, q.z * q.z + q.w * q.w);
  }

  lemma UnitFactor(px: real, py: real, pz: real, pw: real, k: real)
    requires Sq(px * k) + Sq(py * k) + Sq(pz * k) + Sq(pw * k) == 1.0
    ensures k * k * (px * px + py * py + pz * pz + pw * pw) == 1.0
  {
  }

  lemma ForwardX(px: real, py: real, pz: real, pw: real, k: real, fx: real)
    requires k * k * (px * px + py * py + pz * pz + pw * pw) == 1.0
    requires 2.0 * (px * pz + pw * py) == fx * (px * px + py * py + pz * pz + pw * pw)
    ensures (px * k) * ((pz * k) * 2.0) + (pw * k) * ((py * k) * 2.0) == fx
  {
    MulBoth(2.0 * (px * pz + pw * py), fx * (px * px + py * py + pz * pz + pw * pw), k * k);
    MulBoth(k * k * (px * px + py * py + pz * pz + pw * pw), 1.0, fx);
  }

  lemma ForwardY(px: real, py: real, pz: real, pw: real, k: real, fy: real)
    requires k * k * (px * px + py * py + pz * pz + pw * pw) == 1.0
    requires 2.0 * (py * pz - pw * px) == fy * (px * px + py * py + pz * pz + pw * pw)
    ensures (py * k) * ((pz * k) * 2.0) - (pw * k) * ((px * k) * 2.0) == fy
  {
    MulBoth(2.0 * (py * pz - pw * px), fy * (px * px + py * py + pz * pz + pw * pw), k * k);
    MulBoth(k * k * (px * px + py * py + pz * pz + pw * pw), 1.0, fy);
  }

  lemma ForwardZ(px: real, py: real, pz: real, pw: real, k: real, fz: real)
    requires k * k * (px * px + py * py + pz * pz + pw * pw) == 1.0
    requires pw * pw + pz * pz - px * px - py * py == fz * (px * px + py * py + pz * pz + pw * pw)
    ensures 1.0 - ((px * k) * ((px * k) * 2.0) + (py * k) * ((py * k) * 2.0)) == fz
  {
    MulBoth(pw * pw + pz * pz - px * px - py * py, fz * (px * px + py * py + pz * pz + pw * pw), k * k);
    MulBoth(k * k * (px * px + py * py + pz * pz + pw * pw), 1.0, fz);
  }

  lemma MulBoth(a: real, b: real, m: real)
    requires a == b
    ensures m * a == m * b
  {
  }

  // ---------------------------------------------------------- FromToRotation

  /** The axis of the half turn for nearly opposite directions: `from x right`,
      or `from x up` when that is shorter than `AxisThreshold`, normalised.
      It is orthogonal to `from`, and a unit vector whenever `from` is. */
  function HalfTurnAxis(sqrt: real -> real, from: Vec3): (axis: Vec3)
    requires IsSqrt(sqrt)
    ensures Dot(axis, from) == 0.0
    ensures SqrMagnitude(from) == 1.0 ==> SqrMagnitude(axis) == 1.0
  {
    var c := Cross(from, Right);
    var o := if Magnitude(sqrt, c) < AxisThreshold then Cross(from, Up) else c;
    NormalizedOrthogonal(sqrt, o, from);
    if SqrMagnitude(from) == 1.0 then
      AxisLongEnough(sqrt, from);
      Normalize(sqrt, o)
    else
      Normalize(sqrt, o)
  }

  /** For a unit `from` the unnormalised axis is longer than `VectorEpsilon`:
      when `from x right` is short, `from` lies close to the x axis and
      `from x up` is nearly a unit vector. */
  lemma AxisLongEnough(sqrt: real -> real, from: Vec3)
    requires IsSqrt(sqrt) && SqrMagnitude(from) == 1.0
    ensures var c := Cross(from, Right);
            Magnitude(sqrt, if Magnitude(sqrt, c) < AxisThreshold then Cross(from, Up) else c) > VectorEpsilon
  {
    var c := Cross(from, Right);
    if Magnitude(sqrt, c) < AxisThreshold {
      SqStrictlyIncreasing(Magnitude(sqrt, c), AxisThreshold);
      var o := Cross(from, Up);
      assert SqrMagnitude(c) == Sq(from.z) + Sq(from.y);
      assert SqrMagnitude(o) == Sq(from.z) + Sq(from.x);
      assert SqrMagnitude(from) == Sq(from.x) + Sq(from.y) + Sq(from.z);
      SqNonNegative(from.z);
      SqrtAtLeast(sqrt, SqrMagnitude(o), AxisThreshold);
    }
  }

  /** The quaternion of the general case of `FromToRotation`, before it is
      normalised: vector part `(from x to) / s` and scalar part `s / 2`, where
      `s` is the square root of `2 (1 + from . to)`. Its scalar part is the cosine of half the angle
      between unit inputs, and it is then already a unit quaternion. */
  function HalfAngle(sqrt: real -> real, from: Vec3, to: Vec3): (q: Quat)
    requires IsSqrt(sqrt) && Dot(from, to) >= -ParallelThreshold
    ensures q.w > 0.0
    ensures 2.0 * Sq(q.w) == 1.0 + Dot(from, to)
    ensures exists k: real {:trigger Scale(Cross(from, to), k)} ::
              k > 0.0 && Vec3(q.x, q.y, q.z) == Scale(Cross(from, to), k)
    ensures SqrMagnitude(from) == 1.0 && SqrMagnitude(to) == 1.0 ==> IsUnit(q)
  {
    var d := Dot(from, to);
    var c := Cross(from, to);
    var s := sqrt((1.0 + d) * 2.0);
    HalfAngleScale(sqrt, d);
    HalfAngleParts(c, s, d);
    if SqrMagnitude(from) == 1.0 && SqrMagnitude(to) == 1.0 then
      HalfAngleUnit(from, to, s, 1.0 / s);
      Quat(c.x * (1.0 / s), c.y * (1.0 / s), c.z * (1.0 / s), s * 0.5)
    else
      Quat(c.x * (1.0 / s), c.y * (1.0 / s), c.z * (1.0 / s), s * 0.5)
  }

  /** The components of the half-angle quaternion, for `s` the square root of
      `2 (1 + d)`. */
  lemma HalfAngleParts(c: Vec3, s: real, d: real)
    requires s > 0.0 && Sq(s) == (1.0 + d) * 2.0
    ensures var q := Quat(c.x * (1.0 / s), c.y * (1.0 / s), c.z * (1.0 / s), s * 0.5);
            && q.w > 0.0
            && 2.0 * Sq(q.w) == 1.0 + d
            && 1.0 / s > 0.0 && Vec3(q.x, q.y, q.z) == Scale(c, 1.0 / s)
            && (1.0 / s) * s == 1.0
  {
    assert Sq(s * 0.5) == Sq(s) / 4.0;
  }

  /** The scale factor `s` of the general case is positive. */
  lemma HalfAngleScale(sqrt: real -> real, d: real)
    requires IsSqrt(sqrt) && d >= -ParallelThreshold
    ensures sqrt((1.0 + d) * 2.0) > 0.0
  {
    SqOfOne();
  }

  lemma HalfAngleUnit(from: Vec3, to: Vec3, s: real, invS: real)
    requires SqrMagnitude(from) == 1.0 && SqrMagnitude(to) == 1.0
    requires s > 0.0 && Sq(s) == (1.0 + Dot(from, to)) * 2.0 && invS * s == 1.0
    ensures var c := Cross(from, to);
            IsUnit(Quat(c.x * invS, c.y * invS, c.z * invS, s * 0.5))
  {
    var c := Cross(from, to);
    var d := Dot(from, to);
    Lagrange(from, to);
    SqOfProduct(c.x, invS);
    SqOfProduct(c.y, invS);
    SqOfProduct(c.z, invS);
    SqOfProduct(s, 0.5);
    SqOfProduct(s, invS);
    SqOfOne();
    assert SqrMagnitude(c) == Sq(c.x) + Sq(c.y) + Sq(c.z);
    HalfAngleArithmetic(SqrMagnitude(c), d, Sq(d), Sq(s), Sq(invS));
  }

  /** (1 - d^2) / (2 (1 + d)) + (1 + d) / 2 = 1. */
  lemma HalfAngleArithmetic(cc: real, d: real, dd: real, ss: real, ii: real)
    requires cc == 1.0 - dd && dd == d * d && ss == (1.0 + d) * 2.0 && ii * ss == 1.0
    ensures cc * ii + ss * 0.25 == 1.0
  {
    assert cc == (1.0 - d) * (1.0 + d);
    assert cc * ii == (1.0 - d) * 0.5 * (ss * ii);
  }

  /** `FromToRotation(from, to)`: the identity for nearly parallel directions,
      a half turn that reverses `from` for nearly opposite ones, and otherwise
      the normalised half-angle quaternion, whose scalar part is positive. */
  function FromToRotation(sqrt: real -> real, from: Vec3, to: Vec3): (q: Quat)
    requires IsSqrt(sqrt)
    ensures IsUnit(q)
    ensures var f := Normalize(sqrt, from);
            var d := Dot(f, Normalize(sqrt, to));
            && (d > ParallelThreshold ==> q == Identity)
            && (d < -ParallelThreshold ==> q.w == 0.0 && Rotate(q, f) == Neg(f))
            && (-ParallelThreshold <= d <= ParallelThreshold ==> q.w > 0.0)
  {
    var f := Normalize(sqrt, from);
    var t := Normalize(sqrt, to);
    var d := Dot(f, t);
    if d > ParallelThreshold then
      SqOfOne();
      Identity
    else if d < -ParallelThreshold then
      NearlyOppositeIsUnit(sqrt, from, t);
      OppositeCase(sqrt, f);
      HalfTurn(HalfTurnAxis(sqrt, f))
    else
      GeneralCase(sqrt, f, t);
      QNormalize(sqrt, HalfAngle(sqrt, f, t))
  }

  /** A normalised direction with a dot product below `-ParallelThreshold`
      with anything is not zero, so it is a unit vector. */
  lemma NearlyOppositeIsUnit(sqrt: real -> real, from: Vec3, t: Vec3)
    requires IsSqrt(sqrt) && Dot(Normalize(sqrt, from), t) < -ParallelThreshold
    ensures SqrMagnitude(Normalize(sqrt, from)) == 1.0
  {
    assert Normalize(sqrt, from) != Zero;
  }

  /** The half turn about `HalfTurnAxis(from)` is a unit quaternion with zero
      scalar part that reverses a unit `from`. */
  lemma OppositeCase(sqrt: real -> real, from: Vec3)
    requires IsSqrt(sqrt) && SqrMagnitude(from) == 1.0
    ensures var q := HalfTurn(HalfTurnAxis(sqrt, from));
            IsUnit(q) && q.w == 0.0 && Rotate(q, from) == Neg(from)
  {
    var axis := HalfTurnAxis(sqrt, from);
    HalfTurnReverses(axis, from);
    HalfTurnUnit(axis);
  }

  /** Between the thresholds the normalised half-angle quaternion keeps a
      positive scalar part. */
  lemma GeneralCase(sqrt: real -> real, f: Vec3, t: Vec3)
    requires IsSqrt(sqrt) && -ParallelThreshold <= Dot(f, t) <= ParallelThreshold
    ensures QNormalize(sqrt, HalfAngle(sqrt, f, t)).w > 0.0
  {
    var raw := HalfAngle(sqrt, f, t);
    AboveFloatEpsilon(raw.w);
    NormalizeKeepsDirection(sqrt, raw, raw.w);
    var q := QNormalize(sqrt, raw);
    var k: real :| k > 0.0 && q == QScale(raw, k);
    ProdPositive(raw.w, k);
  }

  /** A positive number whose square is at least 0.00005 exceeds
      `Mathf.Epsilon`. */
  lemma AboveFloatEpsilon(w: real)
    requires w > 0.0 && 2.0 * Sq(w) >= 0.0001
    ensures w > FloatEpsilon
  {
    if w <= FloatEpsilon {
      if w < FloatEpsilon {
        SqStrictlyIncreasing(w, FloatEpsilon);
      }
    }
  }

  /** Rotating a direction onto itself is no rotation at all, for every input:
      a (nearly) zero vector normalises to zero, takes the general case with a
      zero cross product, and normalises back to the identity. */
  lemma FromToSame(sqrt: real -> real, v: Vec3)
    requires IsSqrt(sqrt)
    ensures FromToRotation(sqrt, v, v) == Identity
  {
    var f := Normalize(sqrt, v);
    if Magnitude(sqrt, v) > VectorEpsilon {
      assert Dot(f, f) == 1.0;
    } else {
      assert Dot(f, f) == 0.0;
      assert FromToRotation(sqrt, v, v) == QNormalize(sqrt, HalfAngle(sqrt, f, f)) by {
        FromToGeneral(sqrt, v, v);
      }
      HalfAngleOfSelf(sqrt, f);
    }
  }

  /** The half-angle quaternion of a direction with itself has zero vector
      part, and so normalises to the identity. */
  lemma HalfAngleOfSelf(sqrt: real -> real, f: Vec3)
    requires IsSqrt(sqrt) && Dot(f, f) >= -ParallelThreshold
    ensures QNormalize(sqrt, HalfAngle(sqrt, f, f)) == Identity
  {
    var raw := HalfAngle(sqrt, f, f);
    var j: real :| j > 0.0 && Vec3(raw.x, raw.y, raw.z) == Scale(Cross(f, f), j);
    assert Cross(f, f) == Zero;
    AboveFloatEpsilon(raw.w);
    NormalizeKeepsDirection(sqrt, raw, raw.w);
    var q := QNormalize(sqrt, raw);
    var k: real :| k > 0.0 && q == QScale(raw, k);
    ProdPositive(raw.w, k);
    UnitWithoutVectorPart(q);
  }

  /** A unit quaternion with zero vector part and positive scalar part is the
      identity. */
  lemma UnitWithoutVectorPart(q: Quat)
    requires IsUnit(q) && q.x == 0.0 && q.y == 0.0 && q.z == 0.0 && q.w > 0.0
    ensures q == Identity
  {
    SqOfOne();
    PositiveUnitRoot(q.w);
  }

  /** Between the two thresholds the result is the normalised half-angle
      quaternion of the normalised inputs. */
  lemma FromToGeneral(sqrt: real -> real, from: Vec3, to: Vec3)
    requires IsSqrt(sqrt)
    requires var d := Dot(Normalize(sqrt, from), Normalize(sqrt, to));
             -ParallelThreshold <= d <= ParallelThreshold
    ensures FromToRotation(sqrt, from, to)
         == QNormalize(sqrt, HalfAngle(sqrt, Normalize(sqrt, from), Normalize(sqrt, to)))
  {
  }

  /** Between the thresholds, `FromToRotation` turns the normalised `from`
      onto the normalised `to`, whenever neither of them vanished. */
  lemma FromToMaps(sqrt: real -> real, from: Vec3, to: Vec3)
    requires IsSqrt(sqrt)
    ensures var f := Normalize(sqrt, from);
            var t := Normalize(sqrt, to);
            var d := Dot(f, t);
            f != Zero && t != Zero && -ParallelThreshold <= d <= ParallelThreshold ==>
              Rotate(FromToRotation(sqrt, from, to), f) == t
  {
    var f := Normalize(sqrt, from);
    var t := Normalize(sqrt, to);
    var d := Dot(f, t);
    if f != Zero && t != Zero && -ParallelThreshold <= d <= ParallelThreshold {
      FromToGeneral(sqrt, from, to);
      HalfAngleMaps(sqrt, f, t);
    }
  }

  /** `FromToMaps` for unit inputs, which normalise to themselves. */
  lemma FromToMapsUnit(sqrt: real -> real, from: Vec3, to: Vec3)
    requires IsSqrt(sqrt) && SqrMagnitude(from) == 1.0 && SqrMagnitude(to) == 1.0
    requires -ParallelThreshold <= Dot(from, to) <= ParallelThreshold
    ensures Rotate(FromToRotation(sqrt, from, to), from) == to
  {
    NormalizeUnit(sqrt, from);
    NormalizeUnit(sqrt, to);
    FromToMaps(sqrt, from, to);
  }

  /** The half-angle quaternion of two unit vectors that are not nearly
      opposite turns the first onto the second, and normalising it changes
      nothing. */
  lemma HalfAngleMaps(sqrt: real -> real, f: Vec3, t: Vec3)
    requires IsSqrt(sqrt) && SqrMagnitude(f) == 1.0 && SqrMagnitude(t) == 1.0
    requires Dot(f, t) >= -ParallelThreshold
    ensures Rotate(QNormalize(sqrt, HalfAngle(sqrt, f, t)), f) == t
  {
    var raw := HalfAngle(sqrt, f, t);
    assert QNormalize(sqrt, raw) == raw by {
      QNormalizeUnit(sqrt, raw);
    }
    assert Rotate(raw, f) == t by {
      HalfAngleRotatesRaw(sqrt, f, t);
    }
  }

  /** The half-angle quaternion itself, before normalisation, already turns
      the first unit vector onto the second. */
  lemma HalfAngleRotatesRaw(sqrt: real -> real, f: Vec3, t: Vec3)
    requires IsSqrt(sqrt) && SqrMagnitude(f) == 1.0 && SqrMagnitude(t) == 1.0
    requires Dot(f, t) >= -ParallelThreshold
    ensures Rotate(HalfAngle(sqrt, f, t), f) == t
  {
    var d := Dot(f, t);
    var c := Cross(f, t);
    var s := sqrt((1.0 + d) * 2.0);
    HalfAngleRoot(sqrt, d, s);
    var i := 1.0 / s;
    var q := HalfAngle(sqrt, f, t);
    HalfAngleValue(sqrt, f, t, c, s, i, q);
    UnitCrossFacts(f, t, c, d);
    HalfAngleRotates(f, t, c, d, s, i, q);
  }

  /** The components of the half-angle quaternion. */
  lemma HalfAngleValue(sqrt: real -> real, f: Vec3, t: Vec3, c: Vec3, s: real, i: real, q: Quat)
    requires IsSqrt(sqrt) && Dot(f, t) >= -ParallelThreshold
    requires c == Cross(f, t) && s == sqrt((1.0 + Dot(f, t)) * 2.0) && s > 0.0 && i == 1.0 / s
    requires q == HalfAngle(sqrt, f, t)
    ensures q == Quat(c.x * i, c.y * i, c.z * i, s * 0.5)
  {
  }

  /** The root `s` of `2 (1 + d)` in the general case, and its reciprocal. */
  lemma HalfAngleRoot(sqrt: real -> real, d: real, s: real)
    requires IsSqrt(sqrt) && d >= -ParallelThreshold && s == sqrt((1.0 + d) * 2.0)
    ensures s > 0.0 && s * s == (1.0 + d) * 2.0 && (1.0 / s) * s == 1.0
  {
    HalfAngleScale(sqrt, d);
  }

  /** The cross product of two unit vectors is orthogonal to the first, has
      squared length `1 - d^2`, and crossed back with the first it gives the
      part of the second orthogonal to the first. */
  lemma UnitCrossFacts(f: Vec3, t: Vec3, c: Vec3, d: real)
    requires SqrMagnitude(f) == 1.0 && SqrMagnitude(t) == 1.0 && c == Cross(f, t) && d == Dot(f, t)
    ensures && Dot(c, f) == 0.0 && SqrMagnitude(c) == 1.0 - d * d
            && Cross(c, f) == Vec3(t.x - d * f.x, t.y - d * f.y, t.z - d * f.z)
  {
    Lagrange(f, t);
    CrossBack(f, t);
  }

  /** The quaternion `(c i, s / 2)` turns `a` onto `b` when `c` is a vector
      orthogonal to `a` of squared length `1 - d^2` with `c x a = b - d a`,
      and `s i = 1`, `s^2 = 2 (1 + d)`. */
  lemma HalfAngleRotates(a: Vec3, b: Vec3, c: Vec3, d: real, s: real, i: real, q: Quat)
    requires Dot(c, a) == 0.0 && SqrMagnitude(c) == 1.0 - d * d
    requires Cross(c, a) == Vec3(b.x - d * a.x, b.y - d * a.y, b.z - d * a.z)
    requires i * s == 1.0 && s * s == (1.0 + d) * 2.0
    requires q == Quat(c.x * i, c.y * i, c.z * i, s * 0.5)
    ensures Rotate(q, a) == b
  {
    HalfAngleRotatesX(a, b, c, d, s, i, q);
    HalfAngleRotatesY(a, b, c, d, s, i, q);
    HalfAngleRotatesZ(a, b, c, d, s, i, q);
    assert b == Vec3(b.x, b.y, b.z);
  }

  /** `HalfAngleRotates` one component at a time. */
  lemma HalfAngleRotatesX(a: Vec3, b: Vec3, c: Vec3, d: real, s: real, i: real, q: Quat)
    requires Dot(c, a) == 0.0 && SqrMagnitude(c) == 1.0 - d * d
    requires Cross(c, a) == Vec3(b.x - d * a.x, b.y - d * a.y, b.z - d * a.z)
    requires i * s == 1.0 && s * s == (1.0 + d) * 2.0
    requires q == Quat(c.x * i, c.y * i, c.z * i, s * 0.5)
    ensures Rotate(q, a).x == b.x
  {
    RotateRowX(q, a);
    DotOf(c, a);
    SqrMagnitudeOf(c);
    CrossOf(c, a);
    HalfAngleRowX(a.x, a.y, a.z, b.x, c.x, c.y, c.z, s, i, d, q.x, q.y, q.z, q.w, Rotate(q, a).x,
                  Dot(c, a), SqrMagnitude(c), Cross(c, a).x);
  }

  lemma HalfAngleRotatesY(a: Vec3, b: Vec3, c: Vec3, d: real, s: real, i: real, q: Quat)
    requires Dot(c, a) == 0.0 && SqrMagnitude(c) == 1.0 - d * d
    requires Cross(c, a) == Vec3(b.x - d * a.x, b.y - d * a.y, b.z - d * a.z)
    requires i * s == 1.0 && s * s == (1.0 + d) * 2.0
    requires q == Quat(c.x * i, c.y * i, c.z * i, s * 0.5)
    ensures Rotate(q, a).y == b.y
  {
    RotateRowY(q, a);
    DotOf(c, a);
    SqrMagnitudeOf(c);
    CrossOf(c, a);
    HalfAngleRowY(a.x, a.y, a.z, b.y, c.x, c.y, c.z, s, i, d, q.x, q.y, q.z, q.w, Rotate(q, a).y,
                  Dot(c, a), SqrMagnitude(c), Cross(c, a).y);
  }

  lemma HalfAngleRotatesZ(a: Vec3, b: Vec3, c: Vec3, d: real, s: real, i: real, q: Quat)
    requires Dot(c, a) == 0.0 && SqrMagnitude(c) == 1.0 - d * d
    requires Cross(c, a) == Vec3(b.x - d * a.x, b.y - d * a.y, b.z - d * a.z)
    requires i * s == 1.0 && s * s == (1.0 + d) * 2.0
    requires q == Quat(c.x * i, c.y * i, c.z * i, s * 0.5)
    ensures Rotate(q, a).z == b.z
  {
    RotateRowZ(q, a);
    DotOf(c, a);
    SqrMagnitudeOf(c);
    CrossOf(c, a);
    HalfAngleRowZ(a.x, a.y, a.z, b.z, c.x, c.y, c.z, s, i, d, q.x, q.y, q.z, q.w, Rotate(q, a).z,
                  Dot(c, a), SqrMagnitude(c), Cross(c, a).z);
  }

  /** With `s i = 1` and `s^2 = 2 (1 + d)`, the factor `e = 2 i^2` is the
      reciprocal of `1 + d`. */
  lemma HalfAngleFactor(s: real, i: real, d: real, e: real)
    requires i * s == 1.0 && s * s == (1.0 + d) * 2.0 && e == i * i * 2.0
    ensures e * (1.0 + d) == 1.0
  {
    assert e * (1.0 + d) == (i * s) * (i * s);
  }

  /** The first row of the engine's rotation of `p` by `q = (c i, s / 2)`,
      with `e = 2 i^2` and `s i = 1`. */
  lemma HalfAngleRowTerms(px: real, py: real, pz: real, cx: real, cy: real, cz: real,
                          s: real, i: real, e: real, qx: real, qy: real, qz: real, qw: real)
    requires qx == cx * i && qy == cy * i && qz == cz * i && qw == s * 0.5
    requires i * s == 1.0 && e == i * i * 2.0
    ensures (1.0 - (qy * (qy * 2.0) + qz * (qz * 2.0))) * px
               + (qx * (qy * 2.0) - qw * (qz * 2.0)) * py + (qx * (qz * 2.0) + qw * (qy * 2.0)) * pz
         == px - e * (cy * cy + cz * cz) * px + (e * cx * cy - cz) * py + (e * cx * cz + cy) * pz
  {
    assert qw * (qz * 2.0) == cz * (i * s);
    assert qw * (qy * 2.0) == cy * (i * s);
  }

  /** The row collapses to `d px + (c x p).x` once `c` is orthogonal to `p`,
      `|c|^2 = 1 - d^2` and `e (1 + d) = 1`. */
  lemma HalfAngleRowCollapse(px: real, py: real, pz: real, cx: real, cy: real, cz: real,
                             d: real, e: real)
    requires cx * px + cy * py + cz * pz == 0.0
    requires cx * cx + cy * cy + cz * cz == 1.0 - d * d
    requires e * (1.0 + d) == 1.0
    ensures px - e * (cy * cy + cz * cz) * px + (e * cx * cy - cz) * py + (e * cx * cz + cy) * pz
         == d * px + (cy * pz - cz * py)
  {
    assert e * (cy * cy + cz * cz) * px - e * cx * cy * py - e * cx * cz * pz
        == e * ((cx * cx + cy * cy + cz * cz) * px - cx * (cx * px + cy * py + cz * pz));
    assert e * (1.0 - d * d) * px == (e * (1.0 + d)) * ((1.0 - d) * px);
  }

  /** The first row of the rotation by the half-angle quaternion gives
      `t.x`, given the facts about `c = p x t` that the row needs. */
  lemma HalfAngleRowX(px: real, py: real, pz: real, tx: real, cx: real, cy: real, cz: real,
                      s: real, i: real, d: real, qx: real, qy: real, qz: real, qw: real, r: real,
                      k: real, m: real, w: real)
    requires qx == cx * i && qy == cy * i && qz == cz * i && qw == s * 0.5
    requires i * s == 1.0 && s * s == (1.0 + d) * 2.0
    requires k == cx * px + cy * py + cz * pz && k == 0.0
    requires m == cx * cx + cy * cy + cz * cz && m == 1.0 - d * d
    requires w == cy * pz - cz * py && w == tx - d * px
    requires r == (1.0 - (qy * (qy * 2.0) + qz * (qz * 2.0))) * px
               + (qx * (qy * 2.0) - qw * (qz * 2.0)) * py + (qx * (qz * 2.0) + qw * (qy * 2.0)) * pz
    ensures r == tx
  {
    var e := i * i * 2.0;
    HalfAngleFactor(s, i, d, e);
    HalfAngleRowTerms(px, py, pz, cx, cy, cz, s, i, e, qx, qy, qz, qw);
    HalfAngleRowCollapse(px, py, pz, cx, cy, cz, d, e);
  }

  /** The second row: `HalfAngleRowX` with the coordinates in cyclic order. */
  lemma HalfAngleRowY(px: real, py: real, pz: real, ty: real, cx: real, cy: real, cz: real,
                      s: real, i: real, d: real, qx: real, qy: real, qz: real, qw: real, r: real,
                      k: real, m: real, w: real)
    requires qx == cx * i && qy == cy * i && qz == cz * i && qw == s * 0.5
    requires i * s == 1.0 && s * s == (1.0 + d) * 2.0
    requires k == cx * px + cy * py + cz * pz && k == 0.0
    requires m == cx * cx + cy * cy + cz * cz && m == 1.0 - d * d
    requires w == cz * px - cx * pz && w == ty - d * py
    requires r == (qx * (qy * 2.0) + qw * (qz * 2.0)) * px
               + (1.0 - (qx * (qx * 2.0) + qz * (qz * 2.0))) * py + (qy * (qz * 2.0) - qw * (qx * 2.0)) * pz
    ensures r == ty
  {
    HalfAngleRowX(py, pz, px, ty, cy, cz, cx, s, i, d, qy, qz, qx, qw, r, k, m, w);
  }

  /** The third row. */
  lemma HalfAngleRowZ(px: real, py: real, pz: real, tz: real, cx: real, cy: real, cz: real,
                      s: real, i: real, d: real, qx: real, qy: real, qz: real, qw: real, r: real,
                      k: real, m: real, w: real)
    requires qx == cx * i && qy == cy * i && qz == cz * i && qw == s * 0.5
    requires i * s == 1.0 && s * s == (1.0 + d) * 2.0
    requires k == cx * px + cy * py + cz * pz && k == 0.0
    requires m == cx * cx + cy * cy + cz * cz && m == 1.0 - d * d
    requires w == cx * py - cy * px && w == tz - d * pz
    requires r == (qx * (qz * 2.0) - qw * (qy * 2.0)) * px
               + (qy * (qz * 2.0) + qw * (qx * 2.0)) * py + (1.0 - (qx * (qx * 2.0) + qy * (qy * 2.0))) * pz
    ensures r == tz
  {
    HalfAngleRowX(pz, px, py, tz, cz, cx, cy, s, i, d, qz, qx, qy, qw, r, k, m, w);
  }

  // ------------------------------------------- direction <-> arrow rotation

  /** `RotationFromDirection(direction, defaultDir)`: the look rotation towards
      `direction`, applied after the correction that turns `defaultDir` onto
      the forward axis. */
  function RotationFromDirection(sqrt: real -> real, direction: Vec3, defaultDir: Vec3): (q: Quat)
    requires IsSqrt(sqrt)
    ensures IsUnit(q)
  {
    var look := LookRotation(sqrt, direction, Up);
    var correction := FromToRotation(sqrt, defaultDir, Forward);
    MulUnit(look, correction);
    Mul(look, correction)
  }

  /** `DirectionFromRotation(rotation, defaultDir)`: the forward axis turned by
      `rotation` with the correction undone. */
  function DirectionFromRotation(sqrt: real -> real, rotation: Quat, defaultDir: Vec3): (d: Vec3)
    requires IsSqrt(sqrt)
    ensures IsUnit(rotation) ==> SqrMagnitude(d) == 1.0
  {
    var correction := FromToRotation(sqrt, defaultDir, Forward);
    DirectionUnit(rotation, correction);
    Rotate(Mul(rotation, Inverse(correction)), Forward)
  }

  /** Undoing a unit correction after a unit rotation still turns the forward
      axis into a unit vector. */
  lemma DirectionUnit(rotation: Quat, correction: Quat)
    requires IsUnit(correction)
    ensures IsUnit(rotation) ==> SqrMagnitude(Rotate(Mul(rotation, Inverse(correction)), Forward)) == 1.0
  {
    if IsUnit(rotation) {
      InverseUnit(correction);
      MulUnit(rotation, Inverse(correction));
      RotateForwardUnit(Mul(rotation, Inverse(correction)));
    }
  }

  /** `DirectionFromRotation(rotation, defaultDir)` for any unit rotation,
      not only one built by `RotationFromDirection`: it is the rotation
      applied to the normalised default direction, whenever that direction is
      not zero and lies between the parallel thresholds of the forward axis. */
  lemma DirectionFromRotationMeaning(sqrt: real -> real, rotation: Quat, defaultDir: Vec3)
    requires IsSqrt(sqrt) && IsUnit(rotation)
    ensures var r := Normalize(sqrt, defaultDir);
            r != Zero && -ParallelThreshold <= Dot(r, Forward) <= ParallelThreshold ==>
              DirectionFromRotation(sqrt, rotation, defaultDir) == Rotate(rotation, r)
  {
    var r := Normalize(sqrt, defaultDir);
    if r != Zero && -ParallelThreshold <= Dot(r, Forward) <= ParallelThreshold {
      CorrectionStep(sqrt, defaultDir);
      UndoCorrection(rotation, FromToRotation(sqrt, defaultDir, Forward), r, Forward);
    }
  }

  /** Undoing a correction `c` that takes `r` onto `t`: `rotation * c^-1`
      sends `t` where `rotation` sends `r`. */
  lemma UndoCorrection(rotation: Quat, c: Quat, r: Vec3, t: Vec3)
    requires IsUnit(rotation) && IsUnit(c) && Rotate(c, r) == t
    ensures Rotate(Mul(rotation, Inverse(c)), t) == Rotate(rotation, r)
  {
    InverseUnit(c);
    InverseMul(c);
    RotateMul(Inverse(c), c, r);
    RotateIdentity(r);
    RotateMul(rotation, Inverse(c), t);
  }

  /** Reading a direction back from the rotation built for it undoes the
      correction exactly, leaving the look rotation's forward axis; this holds
      for every direction and default direction, because the correction is
      always a unit quaternion. */
  lemma DirectionRoundTrip(sqrt: real -> real, direction: Vec3, defaultDir: Vec3)
    requires IsSqrt(sqrt)
    ensures DirectionFromRotation(sqrt, RotationFromDirection(sqrt, direction, defaultDir), defaultDir)
         == Rotate(LookRotation(sqrt, direction, Up), Forward)
  {
    var look := LookRotation(sqrt, direction, Up);
    var correction := FromToRotation(sqrt, defaultDir, Forward);
    MulAssociative(look, correction, Inverse(correction));
    MulInverse(correction);
    MulIdentity(look);
  }

  /** `RotationFromDirection(direction, defaultDir)` turns the arrow's
      normalised default direction onto the normalised `direction`, whenever
      neither normalises to zero and the default direction lies between the
      parallel thresholds of the forward axis (so the correction is a
      half-angle turn, not the identity or a half turn). The default `up`
      lies there. */
  lemma RotationFromDirectionMaps(sqrt: real -> real, direction: Vec3, defaultDir: Vec3)
    requires IsSqrt(sqrt)
    ensures var d := Normalize(sqrt, direction);
            var r := Normalize(sqrt, defaultDir);
            d != Zero && r != Zero && -ParallelThreshold <= Dot(r, Forward) <= ParallelThreshold ==>
              Rotate(RotationFromDirection(sqrt, direction, defaultDir), r) == d
  {
    var d := Normalize(sqrt, direction);
    var r := Normalize(sqrt, defaultDir);
    if d != Zero && r != Zero && -ParallelThreshold <= Dot(r, Forward) <= ParallelThreshold {
      var look := LookRotation(sqrt, direction, Up);
      var correction := FromToRotation(sqrt, defaultDir, Forward);
      LookForward(sqrt, direction, Up);
      CorrectionStep(sqrt, defaultDir);
      RotateMul(look, correction, r);
    }
  }

  /** The correction turns the normalised default direction onto the forward
      axis when it lies between the thresholds. */
  lemma CorrectionStep(sqrt: real -> real, defaultDir: Vec3)
    requires IsSqrt(sqrt)
    ensures var r := Normalize(sqrt, defaultDir);
            r != Zero && -ParallelThreshold <= Dot(r, Forward) <= ParallelThreshold ==>
              Rotate(FromToRotation(sqrt, defaultDir, Forward), r) == Forward
  {
    var r := Normalize(sqrt, defaultDir);
    if r != Zero && -ParallelThreshold <= Dot(r, Forward) <= ParallelThreshold {
      ForwardTarget(sqrt, defaultDir, Forward, r, FromToRotation(sqrt, defaultDir, Forward));
    }
  }

  /** `FromToMaps` for a target that is already a unit vector. */
  lemma FromToUnitTarget(sqrt: real -> real, from: Vec3, to: Vec3, f: Vec3, q: Quat)
    requires IsSqrt(sqrt) && SqrMagnitude(to) == 1.0
    requires f == Normalize(sqrt, from) && q == FromToRotation(sqrt, from, to)
    requires f != Zero && -ParallelThreshold <= Dot(f, to) <= ParallelThreshold
    ensures Rotate(q, f) == to
  {
    NormalizeUnit(sqrt, to);
    FromToMaps(sqrt, from, to);
  }

  /** `FromToUnitTarget` for a target given by the coordinates of the forward
      axis. */
  lemma ForwardTarget(sqrt: real -> real, from: Vec3, to: Vec3, f: Vec3, q: Quat)
    requires IsSqrt(sqrt) && to.x == 0.0 && to.y == 0.0 && to.z == 1.0
    requires f == Normalize(sqrt, from) && q == FromToRotation(sqrt, from, to)
    requires f != Zero && -ParallelThreshold <= Dot(f, to) <= ParallelThreshold
    ensures Rotate(q, f) == to
  {
    UnitByComponents(to);
    FromToUnitTarget(sqrt, from, to, f, q);
  }

  lemma UnitByComponents(to: Vec3)
    requires to.x == 0.0 && to.y == 0.0 && to.z == 1.0
    ensures SqrMagnitude(to) == 1.0
  {
  }
}
