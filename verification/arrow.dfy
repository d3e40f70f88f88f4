/** The arrow component that shows a vector: it stores the vector's direction
    in its transform's rotation and its length in the transform's uniform
    scale, and reads the vector back from the two. Its `defaultDir` is the
    axis the arrow model points along when unrotated. */
module Arrow {
  import opened VectorMath
  import opened QuaternionExtensions

  /** The parts of the arrow's state the vector is kept in. */
  datatype ArrowState = ArrowState(defaultDir: Vec3, rotation: Quat, localScale: Vec3)

  /** `SetMagnitude(m)`: the arrow is scaled by `m` along every axis. */
  function SetMagnitude(a: ArrowState, magnitude: real): (r: ArrowState)
    ensures r.localScale.x == r.localScale.y == r.localScale.z == magnitude
    ensures r.rotation == a.rotation && r.defaultDir == a.defaultDir
  {
    a.(localScale := Scale(One, magnitude))
  }

  /** `SetDirection(v)`: the rotation is always a unit quaternion, and the
      direction read back from it is the normalized `v`, whatever the
      default direction is; a (nearly) zero `v` reads back as the forward
      axis. The rotation turns the normalised default direction onto the
      normalised `v` when neither is zero and the default direction lies
      between the parallel thresholds of the forward axis, as the default
      `up` does (`SetDirectionTurnsDefault`). */
  function SetDirection(sqrt: real -> real, a: ArrowState, v: Vec3): (r: ArrowState)
    requires IsSqrt(sqrt)
    ensures IsUnit(r.rotation)
    ensures DirectionFromRotation(sqrt, r.rotation, r.defaultDir)
         == (if Normalize(sqrt, v) == Zero then Forward else Normalize(sqrt, v))
    ensures r.localScale == a.localScale && r.defaultDir == a.defaultDir
  {
    DirectionRoundTrip(sqrt, Normalize(sqrt, v), a.defaultDir);
    LookForward(sqrt, Normalize(sqrt, v), Up);
    NormalizeIdempotent(sqrt, v);
    a.(rotation := RotationFromDirection(sqrt, Normalize(sqrt, v), a.defaultDir))
  }

  /** After `SetDirection(v)` the arrow's normalised default direction points
      along the normalised `v`, whenever neither is zero and the default
      direction lies between the parallel thresholds of the forward axis. */
  lemma SetDirectionTurnsDefault(sqrt: real -> real, a: ArrowState, v: Vec3)
    requires IsSqrt(sqrt)
    ensures var n := Normalize(sqrt, v);
            var d := Normalize(sqrt, a.defaultDir);
            n != Zero && d != Zero && -ParallelThreshold <= Dot(d, Forward) <= ParallelThreshold ==>
              Rotate(SetDirection(sqrt, a, v).rotation, d) == n
  {
    var n := Normalize(sqrt, v);
    RotationFromDirectionMaps(sqrt, n, a.defaultDir);
    NormalizeIdempotent(sqrt, v);
  }

  /** `SetAsVector(v)`: the direction first, then the length. */
  function SetAsVector(sqrt: real -> real, a: ArrowState, v: Vec3): (r: ArrowState)
    requires IsSqrt(sqrt)
    ensures IsUnit(r.rotation) && r.defaultDir == a.defaultDir
    ensures r.localScale.x == r.localScale.y == r.localScale.z == Magnitude(sqrt, v)
  {
    SetMagnitude(SetDirection(sqrt, a, v), Magnitude(sqrt, v))
  }

  /** `GetVector()`: the direction read from the rotation, times the scale's
      x component. */
  function GetVector(sqrt: real -> real, a: ArrowState): (v: Vec3)
    requires IsSqrt(sqrt)
    ensures IsUnit(a.rotation) ==> SqrMagnitude(v) == Sq(a.localScale.x)
  {
    var d := DirectionFromRotation(sqrt, a.rotation, a.defaultDir);
    ScaleSqrMagnitude(d, a.localScale.x);
    Scale(d, a.localScale.x)
  }

  /** Reading the vector back after `SetAsVector(v)` gives `v` itself
      whenever `v` is longer than `VectorEpsilon`; a shorter `v` comes back
      as a vector of its length along the forward axis. The default
      direction plays no part. */
  lemma GetAfterSet(sqrt: real -> real, a: ArrowState, v: Vec3)
    requires IsSqrt(sqrt)
    ensures Magnitude(sqrt, v) > VectorEpsilon ==> GetVector(sqrt, SetAsVector(sqrt, a, v)) == v
    ensures Magnitude(sqrt, v) <= VectorEpsilon ==>
              GetVector(sqrt, SetAsVector(sqrt, a, v)) == Scale(Forward, Magnitude(sqrt, v))
  {
    var d := SetDirection(sqrt, a, v);
    assert SetAsVector(sqrt, a, v) == SetMagnitude(d, Magnitude(sqrt, v));
    if Magnitude(sqrt, v) > VectorEpsilon {
      NormalizeScaleBack(sqrt, v);
    }
  }

  /** The vector read back does not depend on the default direction the
      arrow was set up with. */
  lemma GetAfterSetIgnoresDefault(sqrt: real -> real, a: ArrowState, b: ArrowState, v: Vec3)
    requires IsSqrt(sqrt)
    ensures GetVector(sqrt, SetAsVector(sqrt, a, v)) == GetVector(sqrt, SetAsVector(sqrt, b, v))
  {
    GetAfterSet(sqrt, a, v);
    GetAfterSet(sqrt, b, v);
  }

  /** `GetVector` for any unit rotation, such as one set in the editor: the
      rotation applied to the normalised default direction, times the x
      scale, whenever that direction is not zero and lies between the
      parallel thresholds of the forward axis. */
  lemma GetVectorMeaning(sqrt: real -> real, a: ArrowState)
    requires IsSqrt(sqrt) && IsUnit(a.rotation)
    ensures var r := Normalize(sqrt, a.defaultDir);
            r != Zero && -ParallelThreshold <= Dot(r, Forward) <= ParallelThreshold ==>
              GetVector(sqrt, a) == Scale(Rotate(a.rotation, r), a.localScale.x)
  {
    DirectionFromRotationMeaning(sqrt, a.rotation, a.defaultDir);
  }

  /** Changing the length scales the vector read back and keeps its
      direction. */
  lemma GetAfterSetMagnitude(sqrt: real -> real, a: ArrowState, m: real)
    requires IsSqrt(sqrt)
    ensures GetVector(sqrt, SetMagnitude(a, m)) == Scale(DirectionFromRotation(sqrt, a.rotation, a.defaultDir), m)
  {
    var r := SetMagnitude(a, m);
    assert r.localScale.x == m;
  }

  /** Setting the direction and setting the length touch different parts of
      the state, so they commute, and setting the same vector twice changes
      nothing more. */
  lemma SettersCommute(sqrt: real -> real, a: ArrowState, v: Vec3, m: real)
    requires IsSqrt(sqrt)
    ensures SetMagnitude(SetDirection(sqrt, a, v), m) == SetDirection(sqrt, SetMagnitude(a, m), v)
    ensures SetAsVector(sqrt, SetAsVector(sqrt, a, v), v) == SetAsVector(sqrt, a, v)
  {
    var d := SetDirection(sqrt, a, v);
    var s := SetMagnitude(a, m);
    assert SetDirection(sqrt, s, v).rotation == d.rotation;
  }
}
