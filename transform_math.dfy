/** The matrices a scene node derives from its position, Euler rotation (in
    degrees) and scale, shared by the legacy `Transform` and by the newer
    `GameObject`: the world matrix, the forward direction and the view
    matrix. */
module Transforms {
  import opened Numbers
  import opened Vectors
  import opened Matrices

  /** `Matrix.rotate(Matrix.identity, rotation)`: the pure rotation of a node. */
  function RotationMatrix(math: HostMath, rotation: Vec): (m: seq<real>)
    requires !HasNaN(rotation)
    ensures IsMatrix(m) && IsLinear(m)
  {
    RotatedKeepsLinear(math, Identity(), rotation);
    Rotated(math, Identity(), rotation)
  }

  /** `Vector3.transform(v, Matrix.rotate(Matrix.identity, rotation))`: `v`
      turned by the node's rotation. The rotation matrix is linear, so `w`
      is 1 and the division is exact. */
  function EulerRotate(math: HostMath, rotation: Vec, v: Vec): (r: Vec)
    requires !HasNaN(rotation) && !HasNaN(v)
    ensures !HasNaN(r)
  {
    LinearKeepsW(RotationMatrix(math, rotation), v);
    TransformVec(RotationMatrix(math, rotation), v)
  }

  /** The `forward` getter: the +z axis turned by the rotation. */
  function ForwardOf(math: HostMath, rotation: Vec): (r: Vec)
    requires !HasNaN(rotation)
    ensures !HasNaN(r)
  {
    EulerRotate(math, rotation, Forward)
  }

  /** What `getWorldMatrix` stores: scale, then rotate, then translate. */
  function WorldMatrix(math: HostMath, scale: Vec, rotation: Vec, position: Vec): (m: seq<real>)
    requires !HasNaN(scale) && !HasNaN(rotation) && !HasNaN(position)
    ensures IsMatrix(m)
  {
    MatMul(Rotated(math, ScaleMatrix(scale), rotation), Translation(position))
  }

  /** What `getViewMatrix` stores: a view from the position towards the point
      one forward step ahead, with +y as up. */
  function ViewMatrix(math: HostMath, position: Vec, rotation: Vec): (m: seq<real>)
    requires !HasNaN(position) && !HasNaN(rotation)
    ensures IsMatrix(m)
  {
    LookAtMatrix(math, position, Sum(position, ForwardOf(math, rotation)), Up)
  }

  /* ---------------------------------------------------------------- */
  /* Properties                                                        */
  /* ---------------------------------------------------------------- */

  /** The world matrix is affine: its last column is `(0, 0, 0, 1)` and its
      translation row holds the position. */
  lemma WorldMatrixIsAffine(math: HostMath, scale: Vec, rotation: Vec, position: Vec)
    requires !HasNaN(scale) && !HasNaN(rotation) && !HasNaN(position)
    ensures var m := WorldMatrix(math, scale, rotation, position);
            && m[3] == 0.0 && m[7] == 0.0 && m[11] == 0.0 && m[15] == 1.0
            && m[12] == position.x.val && m[13] == position.y.val && m[14] == position.z.val
  {
    var l := Rotated(math, ScaleMatrix(scale), rotation);
    RotatedKeepsLinear(math, ScaleMatrix(scale), rotation);
    LinearThenTranslation(l, position);
  }

  /** The world matrix carries the node's local origin to its position. */
  lemma WorldMatrixPlacesOrigin(math: HostMath, scale: Vec, rotation: Vec, position: Vec)
    requires !HasNaN(scale) && !HasNaN(rotation) && !HasNaN(position)
    ensures Homogeneous(WorldMatrix(math, scale, rotation, position), Zero)[3] == 1.0
    ensures TransformVec(WorldMatrix(math, scale, rotation, position), Zero) == position
  {
    WorldMatrixIsAffine(math, scale, rotation, position);
  }

  /** With `sin 0 = 0` and `cos 0 = 1`, a node at the defaults (position and
      rotation zero, scale one) has the identity as world matrix. */
  lemma DefaultWorldMatrixIsIdentity(math: HostMath)
    requires TrigAtZero(math)
    ensures WorldMatrix(math, One, Zero, Zero) == Identity()
  {
    ScaleOfOneIsIdentity();
    RotatedByZero(math, Identity());
    MatMulIdentityLeft(Translation(Zero));
    assert Translation(Zero) == Identity();
  }

  /** With `sin 0 = 0` and `cos 0 = 1`, an unrotated node leaves local
      offsets as they are and faces +z. */
  lemma UnrotatedKeepsDirections(math: HostMath, v: Vec)
    requires TrigAtZero(math) && !HasNaN(v)
    ensures EulerRotate(math, Zero, v) == v
    ensures ForwardOf(math, Zero) == Forward
  {
    RotatedByZero(math, Identity());
    assert RotationMatrix(math, Zero) == Identity();
  }

  /** The view matrix puts the node's own position at the origin of view space. */
  lemma ViewMatrixCentersPosition(math: HostMath, position: Vec, rotation: Vec)
    requires !HasNaN(position) && !HasNaN(rotation)
    ensures Homogeneous(ViewMatrix(math, position, rotation), position) == [0.0, 0.0, 0.0, 1.0]
  {
    LookAtSendsEyeToOrigin(math, position, Sum(position, ForwardOf(math, rotation)), Up);
  }

  /* ---------------------------------------------------------------- */
  /* The computations the getters run                                  */
  /* ---------------------------------------------------------------- */

  /** `Vector3.transform(v, Matrix.rotate(Matrix.identity, rotation))`, on a
      freshly allocated identity. */
  method ApplyEulerRotation(math: HostMath, rotation: Vec, v: Vec) returns (r: Vec)
    requires !HasNaN(rotation) && !HasNaN(v)
    ensures r == EulerRotate(math, rotation, v)
  {
    var m := NewIdentity();
    m := Rotate(math, m, rotation);
    var rotationMatrix := m[..];
    assert rotationMatrix == RotationMatrix(math, rotation);
    LinearKeepsW(rotationMatrix, v);
    r := TransformVec(rotationMatrix, v);
  }

  /** The body of `getWorldMatrix` once its flag is set: `setScaled`, `rotate`,
      then `multiply` by a new translation matrix, all in place on `m`. */
  method WriteWorldMatrix(math: HostMath, m: array<real>, scale: Vec, rotation: Vec, position: Vec)
    requires m.Length == 16 && !HasNaN(scale) && !HasNaN(rotation) && !HasNaN(position)
    modifies m
    ensures m[..] == WorldMatrix(math, scale, rotation, position)
  {
    var r := SetScaled(m, scale);
    r := Rotate(math, m, rotation);
    var t := NewTranslation(position);
    r := Multiply(m, t);
  }

  /** The body of `getViewMatrix` once its flag is set: `lookAt` from the
      position to `position.sum(forward)`. */
  method WriteViewMatrix(math: HostMath, m: array<real>, position: Vec, rotation: Vec)
    requires m.Length == 16 && !HasNaN(position) && !HasNaN(rotation)
    modifies m
    ensures m[..] == ViewMatrix(math, position, rotation)
  {
    var forward := ApplyEulerRotation(math, rotation, Forward);
    var r := LookAt(math, m, position, Sum(position, forward), Up);
  }

  /* ---------------------------------------------------------------- */
  /* Euler angles kept within one turn                                 */
  /* ---------------------------------------------------------------- */

  /** Every angle is a real strictly between -360 and 360 degrees. */
  predicate WithinTurn(r: Vec) {
    !HasNaN(r) && -360.0 < r.x.val < 360.0 && -360.0 < r.y.val < 360.0 && -360.0 < r.z.val < 360.0
  }

  /** `v.x % 360`, `v.y % 360`, `v.z % 360`: angles of a NaN-free vector
      land within one turn; a NaN stays NaN. */
  function Wrapped(v: Vec): (r: Vec)
    ensures HasNaN(r) <==> HasNaN(v)
    ensures !HasNaN(v) ==> WithinTurn(r)
  {
    if HasNaN(v) then Vec(WrapNumber(v.x), WrapNumber(v.y), WrapNumber(v.z))
    else
      WrapDegreesRange(v.x.val);
      WrapDegreesRange(v.y.val);
      WrapDegreesRange(v.z.val);
      Vec(WrapNumber(v.x), WrapNumber(v.y), WrapNumber(v.z))
  }

  /** Angles already within one turn are left as they are, so wrapping is idempotent. */
  lemma WrappedKeepsTurn(v: Vec)
    ensures WithinTurn(v) ==> Wrapped(v) == v
    ensures Wrapped(Wrapped(v)) == Wrapped(v)
  {
    if v.x.Real? {
      WrapDegreesIdempotent(v.x.val);
    }
    if v.y.Real? {
      WrapDegreesIdempotent(v.y.val);
    }
    if v.z.Real? {
      WrapDegreesIdempotent(v.z.val);
    }
  }
}
