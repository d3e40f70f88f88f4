# Arrow gizmos and quaternion helpers of the math-in-games playground

This project models three pieces of the Unity playground:

- The `QuaternionExtensions` helpers. `LookRotation` builds a frame from a forward and an up vector and converts its matrix to a quaternion. The frame is orthonormal unless forward (nearly) vanishes or is (nearly) parallel to up, i.e. `|up x forward|` is at most `1e-5`; then its right vector, or the whole matrix, is zero. `QuaternionFromMatrix` does that conversion. `FromToRotation` is the shortest-arc rotation, with its two threshold cases. `RotationFromDirection` and `DirectionFromRotation` store a direction in an arrow's rotation and read it back.
- The `Arrow` component. It keeps a vector in its transform: the direction in the rotation and the length in a uniform scale.
- The gizmo helper's procedural arrow mesh. This is a cylinder shaft plus a cone, built by `CreateArrowMesh` and cached lazily by `DrawMeshArrow`.

The model lives in four modules:

- `VectorMath` (`vector_math.dfy`) holds the engine arithmetic the helpers rely on, over idealised reals: dot and cross products, `normalized` with its epsilon cut-offs, the Hamilton product, the inverse, and quaternion-times-vector.
- `QuaternionExtensions` (`orientation.dfy`) is the helper class.
- `Arrow` (`arrow.dfy`) is the component's state and its setters and getter.
- `ArrowMesh` (`arrow_mesh.dfy`) is the mesh layout, the two array-filling passes, and the cache.

Square roots are passed in as a parameter `sqrt` that satisfies `IsSqrt`, because the reals here have none built in.

## Model

| member | source | states |
|---|---|---|
| QuaternionExtensions.LookBasis | Assets/Vectors/Playground.cs:44-48 | The frame is forward normalised, right orthogonal to forward and to the given up, and the recomputed up is forward x right, orthogonal to both. Right is a unit vector exactly when `|up x forward|` exceeds the cut-off `1e-5`, and zero otherwise. A forward that normalises to zero gives the all-zero frame. When neither forward nor right vanishes, the frame is orthonormal. The recomputed up never points away from the given up, and leans strictly towards it whenever right is not zero; this fixes which of the two possible frames is built. |
| QuaternionExtensions.LookRotation | Assets/Vectors/Playground.cs:44-58 | The rotation of the column matrix (right, up, forward) is always a unit quaternion. |
| QuaternionExtensions.LookForward | Assets/Vectors/Playground.cs:44-58 | `LookRotation(forward, up)` turns the forward axis onto the normalised `forward`, for every `up`, including an `up` parallel to `forward`. When `forward` normalises to zero, the matrix is zero and the forward axis stays where it is. |
| QuaternionExtensions.MatrixForward | Assets/Vectors/Playground.cs:60-99 | Whenever the numerators of the branch `QuaternionFromMatrix` takes meet the forward relations for `f`, the normalised quaternion turns the forward axis onto `f`. |
| QuaternionExtensions.FrameNumerators | Assets/Vectors/Playground.cs:48-96 | For a frame (r, f x r, f) with `f` a unit vector orthogonal to `r`, every branch's numerators meet the forward relations for `f`. This holds both for a unit `r` and for the zero `r` of a forward parallel to up. |
| QuaternionExtensions.ZeroMatrixForward | Assets/Vectors/Playground.cs:60-99 | The zero matrix falls through to the z branch, and its rotation leaves the forward axis fixed. |
| QuaternionExtensions.SelectBranch | Assets/Vectors/Playground.cs:65-89 | The branches are tested in source order. The trace case applies exactly when the trace is positive. The x case needs a strictly largest m00. The y case needs m11 strictly above m22. A tie between diagonal entries goes to the later entry. |
| QuaternionExtensions.Radicand | Assets/Vectors/Playground.cs:67-91 | The square root's argument in every branch is at least one, so `s` is never zero. |
| QuaternionExtensions.HalfScale | Assets/Vectors/Playground.cs:67 | `s` is at least 2, and a quarter of `s` squared, times four, gives back the radicand. |
| QuaternionExtensions.MatrixQuaternion | Assets/Vectors/Playground.cs:62-96 | Scaled by four times its selected component, the branch's quaternion gives back that branch's numerators: the radicand in the selected place, and the matching sum or difference of off-diagonal entries in every other place. The selected component is at least one half. |
| QuaternionExtensions.CaseQuaternion | Assets/Vectors/Playground.cs:66-95 | One branch's quaternion: its selected component is a quarter of `s`, and scaling it by four times that component gives back the numerators it was built from, so every other component is its numerator divided by `s`. |
| QuaternionExtensions.QuaternionFromMatrix | Assets/Vectors/Playground.cs:60-99 | The result is a unit quaternion and a positive multiple of the branch's raw quaternion, so normalisation never falls back to the identity. Its selected component stays positive. |
| QuaternionExtensions.NormalizeKeepsDirection | Assets/Vectors/Playground.cs:98 | A quaternion with a component above `Mathf.Epsilon` normalises by a positive factor. |
| QuaternionExtensions.HalfTurnAxis | Assets/Vectors/Playground.cs:115-120 | The half-turn axis is orthogonal to `from`. For a unit `from` it is a unit vector, so it never degenerates. |
| QuaternionExtensions.AxisLongEnough | Assets/Vectors/Playground.cs:115-119 | For a unit `from`, whichever cross product is chosen is longer than the normalisation cut-off. |
| QuaternionExtensions.HalfAngle | Assets/Vectors/Playground.cs:124-132 | In the general case `s` is positive, so the division is defined. The scalar part is positive, and twice its square is one plus the dot product. The vector part is a positive multiple of `from x to`. For unit inputs the quaternion is already a unit quaternion before normalisation. |
| QuaternionExtensions.FromToRotation | Assets/Vectors/Playground.cs:102-134 | The result is always a unit quaternion. Above the threshold it is the identity. Below the negative threshold it has zero scalar part and reverses the normalised `from`. Between the thresholds its scalar part is positive. |
| QuaternionExtensions.OppositeCase | Assets/Vectors/Playground.cs:112-122 | The 180-degree rotation about the axis is a unit quaternion with zero scalar part that maps a unit `from` to `-from`. |
| QuaternionExtensions.GeneralCase | Assets/Vectors/Playground.cs:124-133 | Between the thresholds the normalised half-angle quaternion keeps a positive scalar part. |
| QuaternionExtensions.FromToMaps | Assets/Vectors/Playground.cs:102-134 | Between the thresholds, the result turns the normalised `from` exactly onto the normalised `to`, whenever neither normalised to zero. |
| QuaternionExtensions.FromToMapsUnit | Assets/Vectors/Playground.cs:102-134 | For unit `from` and `to` whose dot product lies between the thresholds, the result turns `from` exactly onto `to`. |
| QuaternionExtensions.HalfAngleMaps | Assets/Vectors/Playground.cs:124-133 | For unit vectors that are not nearly opposite, the normalised half-angle quaternion `(from x to / s, s / 2)` turns `from` onto `to`, and normalising it changes nothing. |
| QuaternionExtensions.FromToSame | Assets/Vectors/Playground.cs:102-134 | Rotating any vector onto itself gives the identity. This includes the zero vector, which takes the general case. |
| QuaternionExtensions.HalfAngleOfSelf | Assets/Vectors/Playground.cs:124-133 | The half-angle quaternion of a direction with itself normalises to the identity. |
| QuaternionExtensions.RotationFromDirection | Assets/Vectors/Playground.cs:136-142 | The look rotation composed after the correction rotation is a unit quaternion. |
| QuaternionExtensions.RotationFromDirectionMaps | Assets/Vectors/Playground.cs:136-142 | The rotation turns the normalised default direction exactly onto the normalised direction, whenever neither normalises to zero and the default direction's dot product with the forward axis lies between the thresholds. The default `up` (dot product zero) is such a direction. |
| QuaternionExtensions.DirectionFromRotation | Assets/Vectors/Playground.cs:144-155 | For a unit rotation, the direction read back is a unit vector, whatever the default direction. |
| QuaternionExtensions.DirectionFromRotationMeaning | Assets/Vectors/Playground.cs:144-155 | For any unit rotation, not only one built by `RotationFromDirection`, the direction read back is the rotation applied to the normalised default direction. This holds whenever that direction is not zero and its dot product with the forward axis lies between the thresholds. |
| QuaternionExtensions.DirectionRoundTrip | Assets/Vectors/Playground.cs:136-155 | Reading a direction back from the rotation built for it cancels the correction exactly, for every default direction. The result is the look rotation applied to the forward axis. |
| VectorMath.Normalize | Assets/Vectors/Playground.cs:46-47 | `normalized` gives a unit vector above the cut-off and zero at or below it. The result is a non-negative multiple of the input. |
| VectorMath.NormalizeIdempotent | Assets/Vectors/Playground.cs:46 | Normalising an already normalised vector changes nothing. |
| VectorMath.NormalizeScaleBack | Assets/Vectors/Arrow.cs:32-51 | A vector above the cut-off is its normalised direction times its magnitude. |
| VectorMath.QNormalize | Assets/Vectors/Playground.cs:98 | Quaternion `normalized` gives a unit quaternion: a positive multiple of the input, or the identity below `Mathf.Epsilon`. |
| VectorMath.MulAssociative | Assets/Vectors/Playground.cs:140-151 | The quaternion product is associative. The round trip depends on this. |
| VectorMath.MulInverse | Assets/Vectors/Playground.cs:148-151 | A unit quaternion times its inverse is the identity. |
| VectorMath.RotateMul | Assets/Vectors/Playground.cs:140 | Rotating by the product `p * q` of unit quaternions is rotating by `q` and then by `p`; this is what makes `rotation2 * correctionRotation2` apply the correction first. |
| VectorMath.RotateSandwich | Assets/Vectors/Playground.cs:154 | For a unit quaternion, the engine's matrix form of quaternion-times-vector agrees with the product `q v q*`, whose scalar part is zero. |
| VectorMath.MulUnit | Assets/Vectors/Playground.cs:140 | The product of unit quaternions is a unit quaternion. |
| VectorMath.HalfTurnReverses | Assets/Vectors/Playground.cs:121 | The 180-degree rotation about a unit axis orthogonal to `v` maps `v` to `-v`. |
| Arrow.SetMagnitude | Assets/Vectors/Arrow.cs:38-41 | The scale becomes uniform at the given magnitude. Rotation and default direction are unchanged. |
| Arrow.SetDirection | Assets/Vectors/Arrow.cs:43-46 | The rotation is a unit quaternion. The direction read back from it is the normalised vector, whatever the default direction; a vector at or below the cut-off reads back as the forward axis. Scale and default direction are unchanged. |
| Arrow.SetDirectionTurnsDefault | Assets/Vectors/Arrow.cs:43-46 | After the setter the rotation turns the normalised default direction onto the normalised vector, whenever neither is zero and the default direction lies between the thresholds of the forward axis. |
| Arrow.SetAsVector | Assets/Vectors/Arrow.cs:32-36 | The rotation is a unit quaternion, and every scale component, x included, equals the vector's magnitude. |
| Arrow.GetVector | Assets/Vectors/Arrow.cs:48-51 | For a unit rotation, the vector read back has the scale's x component as its length (its squared length is that component squared). |
| Arrow.GetVectorMeaning | Assets/Vectors/Arrow.cs:48-51 | For any unit rotation, such as one set by hand in the editor, the vector read back is the rotation applied to the normalised default direction, times the scale's x component. The default direction must be non-zero and lie between the thresholds of the forward axis. |
| Arrow.GetAfterSet | Assets/Vectors/Arrow.cs:32-51 | After `SetAsVector(v)`, `GetVector` returns `v` itself whenever `v` is longer than the cut-off. A shorter `v` comes back as a vector of its length along the forward axis. |
| Arrow.GetAfterSetIgnoresDefault | Assets/Vectors/Arrow.cs:9-51 | That result does not depend on the arrow's default direction. |
| Arrow.GetAfterSetMagnitude | Assets/Vectors/Arrow.cs:38-51 | After `SetMagnitude(m)`, `GetVector` is the stored direction scaled by `m`. |
| Arrow.SettersCommute | Assets/Vectors/Arrow.cs:32-46 | Setting direction and magnitude commute. Setting the same vector twice is the same as setting it once. |
| ArrowMesh.CreateArrowMesh | Assets/GizmoHelpers/MeshGizmoHelper.cs:80-146 | The vertex array holds `(n+1)*2 + n + 1` entries and the index array `n*6 + n*3`. The built mesh is exactly the reference layout: every vertex and every triangle index. |
| ArrowMesh.BuildVertices | Assets/GizmoHelpers/MeshGizmoHelper.cs:92-114 | The running-index fill of shaft pairs, tip and cone ring produces the reference vertices. |
| ArrowMesh.BuildTriangles | Assets/GizmoHelpers/MeshGizmoHelper.cs:117-140 | The running-index fill of shaft quads and cone triangles produces the reference indices. |
| ArrowMesh.FillShaft | Assets/GizmoHelpers/MeshGizmoHelper.cs:121-131 | The shaft loop fills the first `6n` entries with the reference quads and leaves the running index at `6n`. |
| ArrowMesh.WriteQuad | Assets/GizmoHelpers/MeshGizmoHelper.cs:123-130 | One shaft iteration writes the six entries of its quad and leaves the earlier entries alone. |
| ArrowMesh.FillCone | Assets/GizmoHelpers/MeshGizmoHelper.cs:134-140 | Starting from `6n`, the cone loop fills the last `3n` entries with the reference fan, ends exactly at the array's length, and leaves the shaft entries alone. |
| ArrowMesh.IndicesInBounds | Assets/GizmoHelpers/MeshGizmoHelper.cs:117-140 | Every triangle index is a valid vertex position. |
| ArrowMesh.ShaftNeverWraps | Assets/GizmoHelpers/MeshGizmoHelper.cs:121-131 | The `% ((segments + 1) * 2)` never takes effect: quad `i` is `(b, b+1, b+2)`, `(b+1, b+3, b+2)` with `b = 2i`, all below the tip's index. |
| ArrowMesh.ConeFan | Assets/GizmoHelpers/MeshGizmoHelper.cs:134-140 | Cone triangle `i` joins the tip to ring vertices `i` and `i+1`. The last one wraps to the first ring vertex. |
| ArrowMesh.ConeTriangleDistinct | Assets/GizmoHelpers/MeshGizmoHelper.cs:134-140 | A cone triangle's three indices are pairwise distinct exactly when there are at least two segments. |
| ArrowMesh.VertexHeights | Assets/GizmoHelpers/MeshGizmoHelper.cs:94-114 | Exactly the even shaft vertices lie at height 0. Exactly the odd shaft vertices and the ring lie at `shaftHeight`. Only the tip lies at the top, `shaftHeight + coneHeight`, and only the tip has radius zero. Every step index is within `0..n`. |
| ArrowMesh.EveryVertexUsed | Assets/GizmoHelpers/MeshGizmoHelper.cs:92-140 | With at least one segment, every vertex appears in some triangle. |
| ArrowMesh.DrawMeshArrow | Assets/GizmoHelpers/MeshGizmoHelper.cs:7-30 | The mesh is built exactly when the cache is empty, and a built mesh is reused. The drawn mesh is always the default arrow, with 57 vertices and 162 indices. |
| ArrowMesh.DrawTwice | Assets/GizmoHelpers/MeshGizmoHelper.cs:12-30 | Two draws in a row build the mesh at most once, and exactly once from an empty cache. Both draw the same mesh. |

## Left out

- Floating point. All arithmetic is over exact reals, so single-precision rounding is not modelled, and neither are the thresholds' interaction with it.
- Square root. `Mathf.Sqrt` and the square roots inside `magnitude` and `normalized` are the parameter `sqrt`, constrained only by `IsSqrt`.
- Cosine and sine in `CreateArrowMesh`. A vertex keeps its radius and its angular step `i` (angle `2 pi i / segments`) instead of its x and z coordinates.
- The fixed segment count. `CreateArrowMesh` hard-codes 18 segments; the model takes any `n`, and `DrawMeshArrow` uses 18.
- `mesh.name`, `RecalculateNormals` and the `Mesh` object itself. The model keeps only the vertex and index arrays.
- `DrawCustomMesh` and the `Gizmos` calls, which are drawing side effects. The second `DrawMeshArrow` overload also uses the engine's built-in `Quaternion.LookRotation`, which is not part of this model, so both overloads are modelled by their shared cache step only.
- `Arrow.Update`, `LookTowardsCamera`, `Awake` and the text label. These cover presentation, camera access and string formatting.
- The other playground scripts and the remaining gizmo helpers. They are outside the modelled core.
- The engine's own operators. `Vector3`, `Quaternion` and `Matrix4x4` operators are defined in `VectorMath` following the engine's documented behaviour. `Quaternion.Inverse` is the conjugate, and the two agree on the unit quaternions it receives here. `AngleAxis(180, axis)` is `(axis, 0)`.
- QuaternionExtensions.FromToRotation: in the two threshold cases the source returns the identity or a half turn, which map `from` onto itself or onto `-from` and so only approximately onto `to`. The contract states exactly that; `FromToMaps` covers the general case.
- QuaternionExtensions.RotationFromDirection: its own contract gives only the unit length. `RotationFromDirectionMaps` states where it sends the default direction, but only while that direction's dot product with the forward axis lies between the thresholds. For a default direction nearly along `+forward` or `-forward` the correction is the identity or a half turn, and no mapping is stated.
- RotationFromDirection does not fix the roll about the direction. With direction and default direction both `up`, working through the formulas by hand gives `(0, 1, 0, 0)`, a half turn about y, not the identity. It keeps `up` on `up`, as `RotationFromDirectionMaps` proves, but turns the arrow's other axes. This value is not proved here.
- QuaternionExtensions.DirectionFromRotation: its own contract gives only the unit length. `DirectionFromRotationMeaning` states the direction for every unit rotation, but only for a default direction between the parallel thresholds of the forward axis. For a default direction nearly along `+forward` or `-forward` the correction is the identity or a half turn, and the direction is stated only for rotations built by `RotationFromDirection` (`DirectionRoundTrip`). For a rotation that is not a unit quaternion nothing is stated.
- Arrow.GetVector: its own contract gives only the length. `GetVectorMeaning` states the vector for every unit rotation under the same condition on the default direction. Outside it, the vector is stated only after `SetAsVector` (`GetAfterSet`).
- The serialized default `defaultDir = Vector3.up`. The default direction is a free field of `ArrowState`, and every property holds for any default direction.
- Arrow.GetAfterSet: the round trip is exact over the reals. The engine's single-precision result is only close to `v`.
