/** The second generation of scene objects (`src/game/gameObject.js`): a
    `GameObject` that holds its own position, rotation and scale with cached
    world and view matrices, a parent and children, and a `Mesh` with a
    `Material`. */
module Game {
  import opened Numbers
  import opened Vectors
  import opened Matrices
  import opened Transforms
  import opened MeshGeometry
  import opened Arguments

  /* ---------------------------------------------------------------- */
  /* Material                                                          */
  /* ---------------------------------------------------------------- */

  /** A `Material`: the MTL parameters, with `null` for the unset ones. */
  datatype Material = Material(
    name: string,
    shininess: real,
    ambient: seq<real>,
    diffuse: seq<real>,
    specular: seq<real>,
    opacity: real,
    emissive: Option<seq<real>>,
    optical: Option<real>,
    illum: Option<int>)

  /** An RGB colour of the MTL format: three channels between 0 and 1. */
  predicate IsColour(c: seq<real>) {
    |c| == 3 && forall i :: 0 <= i < 3 ==> 0.0 <= c[i] <= 1.0
  }

  /** The ranges the MTL format gives its parameters: colours in RGB,
      specular exponent `Ns` between 0 and 1000, dissolve `d` between 0 and 1. */
  predicate WellFormedMaterial(m: Material) {
    && IsColour(m.ambient) && IsColour(m.diffuse) && IsColour(m.specular)
    && 0.0 <= m.shininess <= 1000.0
    && 0.0 <= m.opacity <= 1.0
    && (m.emissive.Some? ==> IsColour(m.emissive.value))
  }

  /** `new Material(name)`: shininess 400, black ambient, white diffuse and
      specular, fully opaque, the rest unset. */
  function NewMaterial(name: string): (m: Material)
    ensures m.name == name && WellFormedMaterial(m)
    ensures m.opacity == 1.0 && m.emissive == None && m.optical == None && m.illum == None
  {
    Material(name, 400.0, [0.0, 0.0, 0.0], [1.0, 1.0, 1.0], [1.0, 1.0, 1.0], 1.0, None, None, None)
  }

  /** `Material.default`. */
  const DefaultMaterial: Material := NewMaterial("default")

  /** `Material.default` is the fresh material named "default": well formed,
      opaque, and with nothing beyond the defaults set. */
  lemma DefaultMaterialIsDefault()
    ensures DefaultMaterial.name == "default" && WellFormedMaterial(DefaultMaterial)
    ensures DefaultMaterial == NewMaterial(DefaultMaterial.name)
  {
  }

  /* ---------------------------------------------------------------- */
  /* Mesh                                                              */
  /* ---------------------------------------------------------------- */

  /** A `Mesh`: a name, a material, and buffers that stay `null` until
      someone assigns them. */
  class Mesh {
    var isBound: bool
    const name: string
    var material: Option<Material>
    var vertices: array?<real>
    var triangles: array?<int>
    var normals: array?<real>
    var uvs: array?<real>

    /** `new Mesh(name)`: not bound, no material and no buffers. */
    constructor (name: string)
      ensures this.name == name && !isBound && material == None
      ensures vertices == null && triangles == null && normals == null && uvs == null
    {
      isBound := false;
      this.name := name;
      material := None;
      vertices, triangles, normals, uvs := null, null, null, null;
    }

    /** `recalculateNormals()`: a new normal buffer as long as the
        coordinates, holding for every vertex the sum of the normals of the
        faces around it scaled to unit length (left at zero when the sum
        is zero). */
    method RecalculateNormals(math: HostMath)
      requires vertices != null && triangles != null && WellFormed(vertices[..], triangles[..])
      modifies this
      ensures vertices == old(vertices) && triangles == old(triangles) && uvs == old(uvs)
      ensures material == old(material) && isBound == old(isBound)
      ensures fresh(normals) && normals != null
      ensures normals[..] == VertexNormals(math, vertices[..], triangles[..])
    {
      normals := ComputeNormals(math, vertices[..], triangles[..]);
    }
  }

  /* ---------------------------------------------------------------- */
  /* GameObject                                                        */
  /* ---------------------------------------------------------------- */

  /** A component number names `x`, `y` or `z` and the value is a number:
      the only case in which a component setter changes anything. */
  predicate Settable(component: Number, value: Number) {
    value.Real? && (component == Real(0.0) || component == Real(1.0) || component == Real(2.0))
  }

  /** A `GameObject`. Its matrices are recomputed by their getters only
      while their flag is set. */
  class GameObject {
    const math: HostMath
    var worldNeedsUpdate: bool
    var viewNeedsUpdate: bool
    const worldMatrix: array<real>
    const viewMatrix: array<real>
    const position: Vector3
    const rotation: Vector3
    const scale: Vector3
    var parent: GameObject?
    var children: seq<GameObject>
    const name: Option<string>
    var mesh: Mesh?

    /** The three vectors and the two matrices are distinct objects, the
        vectors hold no NaN, and a matrix whose flag is clear holds what its
        getter would compute now. */
    ghost predicate Valid()
      reads this`worldNeedsUpdate, this`viewNeedsUpdate, position, rotation, scale, worldMatrix, viewMatrix
    {
      && position != rotation && position != scale && rotation != scale
      && worldMatrix != viewMatrix && worldMatrix.Length == 16 && viewMatrix.Length == 16
      && !HasNaN(position.Value()) && !HasNaN(rotation.Value()) && !HasNaN(scale.Value())
      && (!worldNeedsUpdate ==> forall i | 0 <= i < 16 :: worldMatrix[i] == WorldMatrix(math, scale.Value(), rotation.Value(), position.Value())[i])
      && (!viewNeedsUpdate ==> forall i | 0 <= i < 16 :: viewMatrix[i] == ViewMatrix(math, position.Value(), rotation.Value())[i])
    }

    /** `new GameObject(name)`: position and rotation zero, scale one, both
        matrices the identity with both flags set, no parent, no children,
        and a new mesh named `'name'`. */
    constructor (math: HostMath, name: Option<string>)
      ensures Valid() && worldNeedsUpdate && viewNeedsUpdate
      ensures position.Value() == Zero && rotation.Value() == Zero && scale.Value() == One
      ensures worldMatrix[..] == Identity() && viewMatrix[..] == Identity()
      ensures parent == null && children == [] && this.name == name
      ensures fresh(position) && fresh(rotation) && fresh(scale) && fresh(worldMatrix) && fresh(viewMatrix)
      ensures fresh(mesh) && mesh != null && mesh.name == "name" && mesh.material == None && !mesh.isBound
      ensures mesh.vertices == null && mesh.triangles == null && mesh.normals == null && mesh.uvs == null
    {
      this.math := math;
      worldNeedsUpdate, viewNeedsUpdate := true, true;
      var w := NewIdentity();
      var v := NewIdentity();
      worldMatrix, viewMatrix := w, v;
      position := new Vector3(Zero.x, Zero.y, Zero.z);
      rotation := new Vector3(Zero.x, Zero.y, Zero.z);
      scale := new Vector3(One.x, One.y, One.z);
      parent := null;
      children := [];
      this.name := name;
      mesh := new Mesh("name");
    }

    /** The `forward` getter: the unit z axis turned by the rotation. */
    method Forward() returns (f: Vec)
      requires Valid()
      ensures f == ForwardOf(math, rotation.Value())
    {
      f := ApplyEulerRotation(math, rotation.Value(), Vectors.Forward);
    }

    /** `setMesh(mesh)`: stores the mesh and returns this object. */
    method SetMesh(mesh: Mesh?) returns (r: GameObject)
      modifies this
      ensures r == this && this.mesh == mesh
      ensures children == old(children) && parent == old(parent)
      ensures worldNeedsUpdate == old(worldNeedsUpdate) && viewNeedsUpdate == old(viewNeedsUpdate)
    {
      this.mesh := mesh;
      r := this;
    }

    /** `setMaterial(material)`: gives the current mesh the material and
        returns this object; the mesh must exist. */
    method SetMaterial(material: Option<Material>) returns (r: GameObject)
      requires mesh != null
      modifies mesh
      ensures r == this && mesh.material == material
      ensures mesh.vertices == old(mesh.vertices) && mesh.triangles == old(mesh.triangles)
      ensures mesh.normals == old(mesh.normals) && mesh.uvs == old(mesh.uvs) && mesh.isBound == old(mesh.isBound)
    {
      mesh.material := material;
      r := this;
    }

    /** `add(...children)`: appends the game objects among the arguments to
        the children, in order, skipping anything else, makes this object
        the parent of each of them, and returns this object. */
    method Add(xs: seq<Arg<GameObject>>) returns (r: GameObject)
      requires Valid()
      modifies this`children, this`parent, (set c | c in Instances(xs))`parent
      ensures Valid() && r == this
      ensures children == old(children) + Instances(xs)
      ensures forall c :: c in Instances(xs) ==> c.parent == this
      ensures this !in Instances(xs) ==> parent == old(parent)
      ensures mesh == old(mesh) && worldNeedsUpdate == old(worldNeedsUpdate) && viewNeedsUpdate == old(viewNeedsUpdate)
      ensures forall i :: 0 <= i < |xs| && xs[i].Instance? ==>
                && xs[i].obj.mesh == old(xs[i].obj.mesh)
                && xs[i].obj.worldNeedsUpdate == old(xs[i].obj.worldNeedsUpdate)
                && xs[i].obj.viewNeedsUpdate == old(xs[i].obj.viewNeedsUpdate)
                && (xs[i].obj != this ==> xs[i].obj.children == old(xs[i].obj.children))
    {
      var i := 0;
      while i < |xs|
        invariant 0 <= i <= |xs|
        invariant children == old(children) + Instances(xs[..i])
        invariant forall c :: c in Instances(xs[..i]) ==> c.parent == this
        invariant this !in Instances(xs) ==> parent == old(parent)
      {
        assert xs[..i + 1][..i] == xs[..i];
        if xs[i].Instance? {
          var child := xs[i].obj;
          InstancesMembers(xs);
          assert xs[i] in xs;
          children := children + [child];
          child.parent := this;
        }
        i := i + 1;
      }
      assert xs[..i] == xs;
      assert unchanged(position, rotation, scale, worldMatrix, viewMatrix);
      r := this;
    }

    /** `getWorldMatrix()`: recomputes the world matrix when its flag is
        set, clears the flag, and returns the cached matrix; with the flag
        clear the matrix is returned untouched. */
    method GetWorldMatrix() returns (m: array<real>)
      requires Valid()
      modifies this, worldMatrix
      ensures Valid() && m == worldMatrix && !worldNeedsUpdate && viewNeedsUpdate == old(viewNeedsUpdate)
      ensures unchanged(position, rotation, scale, viewMatrix)
      ensures parent == old(parent) && children == old(children) && mesh == old(mesh)
      ensures m[..] == WorldMatrix(math, scale.Value(), rotation.Value(), position.Value())
      ensures !old(worldNeedsUpdate) ==> unchanged(worldMatrix)
    {
      if worldNeedsUpdate {
        RefreshWorld();
      }
      m := worldMatrix;
    }

    /** The branch of `getWorldMatrix` taken when its flag is set. */
    method RefreshWorld()
      requires Valid()
      modifies this, worldMatrix
      ensures Valid() && !worldNeedsUpdate && viewNeedsUpdate == old(viewNeedsUpdate)
      ensures unchanged(position, rotation, scale, viewMatrix)
      ensures parent == old(parent) && children == old(children) && mesh == old(mesh)
    {
      var s, r, p := scale.Value(), rotation.Value(), position.Value();
      WriteWorldMatrix(math, worldMatrix, s, r, p);
      assert scale.Value() == s && rotation.Value() == r && position.Value() == p;
      worldNeedsUpdate := false;
    }

    /** `getViewMatrix()`: the same caching for the view matrix, which looks
        from the position along `forward`. */
    method GetViewMatrix() returns (m: array<real>)
      requires Valid()
      modifies this, viewMatrix
      ensures Valid() && m == viewMatrix && !viewNeedsUpdate && worldNeedsUpdate == old(worldNeedsUpdate)
      ensures unchanged(position, rotation, scale, worldMatrix)
      ensures parent == old(parent) && children == old(children) && mesh == old(mesh)
      ensures m[..] == ViewMatrix(math, position.Value(), rotation.Value())
      ensures !old(viewNeedsUpdate) ==> unchanged(viewMatrix)
    {
      if viewNeedsUpdate {
        RefreshView();
      }
      m := viewMatrix;
    }

    /** The branch of `getViewMatrix` taken when its flag is set. */
    method RefreshView()
      requires Valid()
      modifies this, viewMatrix
      ensures Valid() && !viewNeedsUpdate && worldNeedsUpdate == old(worldNeedsUpdate)
      ensures unchanged(position, rotation, scale, worldMatrix)
      ensures parent == old(parent) && children == old(children) && mesh == old(mesh)
    {
      var p, r := position.Value(), rotation.Value();
      WriteViewMatrix(math, viewMatrix, p, r);
      assert position.Value() == p && rotation.Value() == r;
      viewNeedsUpdate := false;
    }

    /** `translate(vector)`: a missing or NaN vector changes nothing;
        otherwise the position moves by `vector` and both flags are set.
        This object is returned either way. */
    method Translate(vector: Vector3?) returns (r: GameObject)
      requires Valid()
      modifies this, position
      ensures Valid() && r == this && unchanged(rotation, scale)
      ensures parent == old(parent) && children == old(children) && mesh == old(mesh)
      ensures old(IsNaN(vector)) ==> unchanged(this, position)
      ensures !old(IsNaN(vector)) ==> worldNeedsUpdate && viewNeedsUpdate
      ensures !old(IsNaN(vector)) ==> position.Value() == Sum(old(position.Value()), old(vector.Value()))
    {
      if IsNaN(vector) {
        return this;
      }
      position.x := Plus(position.x, vector.x);
      position.y := Plus(position.y, vector.y);
      position.z := Plus(position.z, vector.z);
      worldNeedsUpdate, viewNeedsUpdate := true, true;
      r := this;
    }

    /** `translateLocal(vector)`: moves the position by `vector` turned by
        the current rotation, with the same NaN rule as `translate`. */
    method TranslateLocal(vector: Vector3?) returns (r: GameObject)
      requires Valid()
      modifies this, position
      ensures Valid() && r == this && unchanged(rotation, scale)
      ensures parent == old(parent) && children == old(children) && mesh == old(mesh)
      ensures old(IsNaN(vector)) ==> unchanged(this, position)
      ensures !old(IsNaN(vector)) ==> worldNeedsUpdate && viewNeedsUpdate
      ensures !old(IsNaN(vector)) ==>
                position.Value() == Sum(old(position.Value()), EulerRotate(math, old(rotation.Value()), old(vector.Value())))
    {
      if IsNaN(vector) {
        return this;
      }
      var local := ApplyEulerRotation(math, rotation.Value(), vector.Value());
      var localVector := new Vector3(local.x, local.y, local.z);
      r := Translate(localVector);
      worldNeedsUpdate, viewNeedsUpdate := true, true;
      r := this;
    }

    /** `rotate(vector)`: adds `vector` to the angles and wraps each with
        `% 360`, with the same NaN rule. */
    method Rotate(vector: Vector3?) returns (r: GameObject)
      requires Valid()
      modifies this, rotation
      ensures Valid() && r == this && unchanged(position, scale)
      ensures parent == old(parent) && children == old(children) && mesh == old(mesh)
      ensures old(IsNaN(vector)) ==> unchanged(this, rotation)
      ensures !old(IsNaN(vector)) ==> worldNeedsUpdate && viewNeedsUpdate
      ensures !old(IsNaN(vector)) ==> rotation.Value() == Wrapped(Sum(old(rotation.Value()), old(vector.Value())))
    {
      if IsNaN(vector) {
        return this;
      }
      ghost var target := Wrapped(Sum(rotation.Value(), vector.Value()));
      rotation.x := WrapNumber(Plus(rotation.x, vector.x));
      rotation.y := WrapNumber(Plus(rotation.y, vector.y));
      rotation.z := WrapNumber(Plus(rotation.z, vector.z));
      assert rotation.Value() == target;
      worldNeedsUpdate, viewNeedsUpdate := true, true;
      r := this;
    }

    /** `setPosition(vector)`: copies the components of `vector` into the
        position, with the same NaN rule. */
    method SetPosition(vector: Vector3?) returns (r: GameObject)
      requires Valid()
      modifies this, position
      ensures Valid() && r == this && unchanged(rotation, scale)
      ensures parent == old(parent) && children == old(children) && mesh == old(mesh)
      ensures old(IsNaN(vector)) ==> unchanged(this, position)
      ensures !old(IsNaN(vector)) ==> worldNeedsUpdate && viewNeedsUpdate
      ensures !old(IsNaN(vector)) ==> position.Value() == old(vector.Value())
    {
      if IsNaN(vector) {
        return this;
      }
      position.x := vector.x;
      position.y := vector.y;
      position.z := vector.z;
      worldNeedsUpdate, viewNeedsUpdate := true, true;
      r := this;
    }

    /** `setPositionComponent(component, value)`: component 0, 1 or 2
        becomes `value`, the others stay; a NaN component or value, or any
        other component number, changes nothing. */
    method SetPositionComponent(component: Number, value: Number) returns (r: GameObject)
      requires Valid()
      modifies this, position
      ensures Valid() && r == this && unchanged(rotation, scale)
      ensures parent == old(parent) && children == old(children) && mesh == old(mesh)
      ensures !Settable(component, value) ==> unchanged(this, position)
      ensures Settable(component, value) ==> worldNeedsUpdate && viewNeedsUpdate
      ensures Settable(component, value) && component == Real(0.0) ==> position.Value() == old(position.Value()).(x := value)
      ensures Settable(component, value) && component == Real(1.0) ==> position.Value() == old(position.Value()).(y := value)
      ensures Settable(component, value) && component == Real(2.0) ==> position.Value() == old(position.Value()).(z := value)
    {
      if value.NaN? || component.NaN? {
        return this;
      }
      if component == Real(0.0) {
        position.x := value;
      } else if component == Real(1.0) {
        position.y := value;
      } else if component == Real(2.0) {
        position.z := value;
      } else {
        return this;
      }
      worldNeedsUpdate, viewNeedsUpdate := true, true;
      r := this;
    }

    /** `setRotation(vector)`: the angles become those of `vector`, each
        wrapped with `% 360`, with the same NaN rule. */
    method SetRotation(vector: Vector3?) returns (r: GameObject)
      requires Valid()
      modifies this, rotation
      ensures Valid() && r == this && unchanged(position, scale)
      ensures parent == old(parent) && children == old(children) && mesh == old(mesh)
      ensures old(IsNaN(vector)) ==> unchanged(this, rotation)
      ensures !old(IsNaN(vector)) ==> worldNeedsUpdate && viewNeedsUpdate
      ensures !old(IsNaN(vector)) ==> rotation.Value() == Wrapped(old(vector.Value()))
    {
      if IsNaN(vector) {
        return this;
      }
      ghost var target := Wrapped(vector.Value());
      rotation.x := WrapNumber(vector.x);
      rotation.y := WrapNumber(vector.y);
      rotation.z := WrapNumber(vector.z);
      assert rotation.Value() == target;
      worldNeedsUpdate, viewNeedsUpdate := true, true;
      r := this;
    }

    /** `setRotationComponent(component, value)`: like the position
        component setter; the angle is stored as given, without `% 360`. */
    method SetRotationComponent(component: Number, value: Number) returns (r: GameObject)
      requires Valid()
      modifies this, rotation
      ensures Valid() && r == this && unchanged(position, scale)
      ensures parent == old(parent) && children == old(children) && mesh == old(mesh)
      ensures !Settable(component, value) ==> unchanged(this, rotation)
      ensures Settable(component, value) ==> worldNeedsUpdate && viewNeedsUpdate
      ensures Settable(component, value) && component == Real(0.0) ==> rotation.Value() == old(rotation.Value()).(x := value)
      ensures Settable(component, value) && component == Real(1.0) ==> rotation.Value() == old(rotation.Value()).(y := value)
      ensures Settable(component, value) && component == Real(2.0) ==> rotation.Value() == old(rotation.Value()).(z := value)
    {
      if value.NaN? || component.NaN? {
        return this;
      }
      if component == Real(0.0) {
        rotation.x := value;
      } else if component == Real(1.0) {
        rotation.y := value;
      } else if component == Real(2.0) {
        rotation.z := value;
      } else {
        return this;
      }
      worldNeedsUpdate, viewNeedsUpdate := true, true;
      r := this;
    }

    /** `setScale(vector)`: copies the components of `vector` into the
        scale, with the same NaN rule. */
    method SetScale(vector: Vector3?) returns (r: GameObject)
      requires Valid()
      modifies this, scale
      ensures Valid() && r == this && unchanged(position, rotation)
      ensures parent == old(parent) && children == old(children) && mesh == old(mesh)
      ensures old(IsNaN(vector)) ==> unchanged(this, scale)
      ensures !old(IsNaN(vector)) ==> worldNeedsUpdate && viewNeedsUpdate
      ensures !old(IsNaN(vector)) ==> scale.Value() == old(vector.Value())
    {
      if IsNaN(vector) {
        return this;
      }
      scale.x := vector.x;
      scale.y := vector.y;
      scale.z := vector.z;
      worldNeedsUpdate, viewNeedsUpdate := true, true;
      r := this;
    }

    /** `setScaleComponent(component, value)`: like the position component
        setter, for the scale. */
    method SetScaleComponent(component: Number, value: Number) returns (r: GameObject)
      requires Valid()
      modifies this, scale
      ensures Valid() && r == this && unchanged(position, rotation)
      ensures parent == old(parent) && children == old(children) && mesh == old(mesh)
      ensures !Settable(component, value) ==> unchanged(this, scale)
      ensures Settable(component, value) ==> worldNeedsUpdate && viewNeedsUpdate
      ensures Settable(component, value) && component == Real(0.0) ==> scale.Value() == old(scale.Value()).(x := value)
      ensures Settable(component, value) && component == Real(1.0) ==> scale.Value() == old(scale.Value()).(y := value)
      ensures Settable(component, value) && component == Real(2.0) ==> scale.Value() == old(scale.Value()).(z := value)
    {
      if value.NaN? || component.NaN? {
        return this;
      }
      if component == Real(0.0) {
        scale.x := value;
      } else if component == Real(1.0) {
        scale.y := value;
      } else if component == Real(2.0) {
        scale.z := value;
      } else {
        return this;
      }
      worldNeedsUpdate, viewNeedsUpdate := true, true;
      r := this;
    }
  }
}
