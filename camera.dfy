/** `Camera` of `src/camera.js`: a first-generation game object with a
    perspective projection matrix that is computed on the first request
    and then kept. */
module Cameras {
  import opened Numbers
  import opened Vectors
  import opened Matrices
  import LegacyScene

  /** The field of view (in radians), near plane and far plane the
      constructor sets. */
  const DefaultFov: real := 0.90
  const DefaultNear: real := 0.1
  const DefaultFar: real := 20000.0

  /** A `Camera`. The game object it extends is held in `node`. */
  class Camera {
    const math: HostMath
    const node: LegacyScene.GameObject
    var projectionUpdated: bool
    const projectionMatrix: array<real>
    var fov: real
    var near: real
    var far: real

    /** `new Camera(name)`: the game object part is built as for any game
        object; the projection matrix starts as the identity with its flag
        set, and the field of view, near and far planes take their
        defaults. */
    constructor (math: HostMath, name: string)
      ensures this.math == math && fresh(node) && fresh(projectionMatrix)
      ensures node.name == name && node.mesh == null && node.parent == null && node.children == []
      ensures node.transform.Valid()
      ensures projectionUpdated && projectionMatrix[..] == Identity()
      ensures fov == DefaultFov && near == DefaultNear && far == DefaultFar
    {
      var identity := NewIdentity();
      this.math := math;
      projectionUpdated := true;
      projectionMatrix := identity;
      fov, near, far := DefaultFov, DefaultNear, DefaultFar;
      node := new LegacyScene.GameObject(math, name);
    }

    /** `getProjectionMatrix()`, with the window's aspect ratio passed in:
        the first call writes the perspective of the current field of view,
        aspect and planes and clears the flag; nothing sets the flag again,
        so later calls return the matrix untouched whatever the fields or
        the aspect have become since. */
    method GetProjectionMatrix(aspect: real) returns (m: array<real>)
      requires projectionMatrix.Length == 16
      requires projectionUpdated ==> PerspectiveDefined(math, fov, aspect, near, far)
      modifies this, projectionMatrix
      ensures m == projectionMatrix && !projectionUpdated
      ensures fov == old(fov) && near == old(near) && far == old(far)
      ensures old(projectionUpdated) ==> m[..] == Perspective(math, fov, aspect, near, far)
      ensures !old(projectionUpdated) ==> unchanged(projectionMatrix)
    {
      if projectionUpdated {
        var r := PerspectiveFovLH(math, projectionMatrix, fov, aspect, near, far);
        projectionUpdated := false;
      }
      m := projectionMatrix;
    }
  }

  /** With the default planes, a point on the near plane lands at depth 0
      and a point on the far plane at depth 1. */
  lemma DefaultDepthRange(math: HostMath, aspect: real, p: Vec)
    requires PerspectiveDefined(math, DefaultFov, aspect, DefaultNear, DefaultFar) && !HasNaN(p)
    ensures var h := Homogeneous(Perspective(math, DefaultFov, aspect, DefaultNear, DefaultFar), p);
            && h[3] == p.z.val
            && (p.z.val == DefaultNear ==> h[2] == 0.0)
            && (p.z.val == DefaultFar ==> h[2] == h[3])
  {
    PerspectiveDepthRange(math, DefaultFov, aspect, DefaultNear, DefaultFar, p);
  }
}
