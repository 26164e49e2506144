/** The first generation of scene objects (`src/gameObject.js`): a
    `GameObject` holding a `Transform` component, the `Transform` with its
    cached world and view matrices, and the `Mesh` with its flat buffers. */
module LegacyScene {
  import opened Numbers
  import opened Vectors
  import opened Matrices
  import opened Transforms
  import opened MeshGeometry
  import opened Arguments

  /* ---------------------------------------------------------------- */
  /* Transform                                                         */
  /* ---------------------------------------------------------------- */

  /** A `Transform`: position, rotation (degrees) and scale, plus a world
      and a view matrix that are recomputed only when their flag is set. */
  class Transform {
    const math: HostMath
    const position: Vector3
    const rotation: Vector3
    const scale: Vector3
    var worldNeedsUpdate: bool
    var viewNeedsUpdate: bool
    const worldMatrix: array<real>
    const viewMatrix: array<real>

    /** The three vectors and the two matrices are distinct objects, the
        vectors hold no NaN, the angles stay within one turn, and a matrix
        whose flag is clear holds what its getter would compute now. */
    ghost predicate Valid()
      reads this, position, rotation, scale, worldMatrix, viewMatrix
    {
      && position != rotation && position != scale && rotation != scale
      && worldMatrix != viewMatrix && worldMatrix.Length == 16 && viewMatrix.Length == 16
      && !HasNaN(position.Value()) && !HasNaN(scale.Value()) && WithinTurn(rotation.Value())
      && (!worldNeedsUpdate ==> forall i | 0 <= i < 16 :: worldMatrix[i] == WorldMatrix(math, scale.Value(), rotation.Value(), position.Value())[i])
      && (!viewNeedsUpdate ==> forall i | 0 <= i < 16 :: viewMatrix[i] == ViewMatrix(math, position.Value(), rotation.Value())[i])
    }

    /** `new Transform()`: position zero, rotation zero, scale one, both
        flags set, then both getters are called, so the new transform
        starts with both matrices up to date. */
    constructor (math: HostMath)
      ensures Valid() && !worldNeedsUpdate && !viewNeedsUpdate
      ensures position.Value() == Zero && rotation.Value() == Zero && scale.Value() == One
      ensures fresh(position) && fresh(rotation) && fresh(scale) && fresh(worldMatrix) && fresh(viewMatrix)
    {
      this.math := math;
      position := new Vector3(Zero.x, Zero.y, Zero.z);
      rotation := new Vector3(Zero.x, Zero.y, Zero.z);
      scale := new Vector3(One.x, One.y, One.z);
      worldNeedsUpdate, viewNeedsUpdate := true, true;
      var w := NewIdentity();
      var v := NewIdentity();
      worldMatrix, viewMatrix := w, v;
      new;
      RefreshBoth();
    }

    /** The two getter calls at the end of the constructor: both flags are
        set, so each getter takes its refreshing branch. */
    method RefreshBoth()
      requires Valid()
      modifies this, worldMatrix, viewMatrix
      ensures Valid() && !worldNeedsUpdate && !viewNeedsUpdate
      ensures unchanged(position, rotation, scale)
    {
      RefreshWorld();
      RefreshView();
    }

    /** The `forward` getter: the unit z axis turned by the rotation. */
    method Forward() returns (f: Vec)
      requires Valid()
      ensures f == ForwardOf(math, rotation.Value())
    {
      f := ApplyEulerRotation(math, rotation.Value(), Vectors.Forward);
    }

    /** `getWorldMatrix()`: recomputes the world matrix when its flag is set,
        clears the flag, and returns the cached matrix; with the flag clear
        the matrix is returned untouched. */
    method GetWorldMatrix() returns (m: array<real>)
      requires Valid()
      modifies this, worldMatrix
      ensures Valid() && m == worldMatrix && !worldNeedsUpdate && viewNeedsUpdate == old(viewNeedsUpdate)
      ensures unchanged(position, rotation, scale, viewMatrix)
      ensures m[..] == WorldMatrix(math, scale.Value(), rotation.Value(), position.Value())
      ensures !old(worldNeedsUpdate) ==> unchanged(worldMatrix)
    {
      if worldNeedsUpdate {
        RefreshWorld();
      }
      m := worldMatrix;
    }

    /** The branch of `getWorldMatrix` taken when its flag is set. */
    method RefreshWorld()
      requires Valid()
      modifies this, worldMatrix
      ensures Valid() && !worldNeedsUpdate && viewNeedsUpdate == old(viewNeedsUpdate)
      ensures unchanged(position, rotation, scale, viewMatrix)
    {
      var s, r, p := scale.Value(), rotation.Value(), position.Value();
      WriteWorldMatrix(math, worldMatrix, s, r, p);
      assert scale.Value() == s && rotation.Value() == r && position.Value() == p;
      worldNeedsUpdate := false;
    }

    /** `getViewMatrix()`: the same caching for the view matrix. */
    method GetViewMatrix() returns (m: array<real>)
      requires Valid()
      modifies this, viewMatrix
      ensures Valid() && m == viewMatrix && !viewNeedsUpdate && worldNeedsUpdate == old(worldNeedsUpdate)
      ensures unchanged(position, rotation, scale, worldMatrix)
      ensures m[..] == ViewMatrix(math, position.Value(), rotation.Value())
      ensures !old(viewNeedsUpdate) ==> unchanged(viewMatrix)
    {
      if viewNeedsUpdate {
        RefreshView();
      }
      m := viewMatrix;
    }

    /** The branch of `getViewMatrix` taken when its flag is set. */
    method RefreshView()
      requires Valid()
      modifies this, viewMatrix
      ensures Valid() && !viewNeedsUpdate && worldNeedsUpdate == old(worldNeedsUpdate)
      ensures unchanged(position, rotation, scale, worldMatrix)
    {
      var p, r := position.Value(), rotation.Value();
      WriteViewMatrix(math, viewMatrix, p, r);
      assert position.Value() == p && rotation.Value() == r;
      viewNeedsUpdate := false;
    }

    /** `translate(vector)`: a missing or NaN vector changes nothing and
        yields `undefined`; otherwise the position moves by `vector`, both
        flags are set and the transform is returned. */
    method Translate(vector: Vector3?) returns (r: Transform?)
      requires Valid()
      modifies this, position
      ensures Valid() && unchanged(rotation, scale)
      ensures old(IsNaN(vector)) ==> r == null && unchanged(this, position)
      ensures !old(IsNaN(vector)) ==> r == this && worldNeedsUpdate && viewNeedsUpdate
      ensures !old(IsNaN(vector)) ==> position.Value() == Sum(old(position.Value()), old(vector.Value()))
    {
      if IsNaN(vector) {
        return null;
      }
      position.x := Plus(position.x, vector.x);
      position.y := Plus(position.y, vector.y);
      position.z := Plus(position.z, vector.z);
      worldNeedsUpdate, viewNeedsUpdate := true, true;
      r := this;
    }

    /** `translateLocal(vector)`: moves the position by `vector` turned by
        the current rotation, with the same NaN rule as `translate`. */
    method TranslateLocal(vector: Vector3?) returns (r: Transform?)
      requires Valid()
      modifies this, position
      ensures Valid() && unchanged(rotation, scale)
      ensures old(IsNaN(vector)) ==> r == null && unchanged(this, position)
      ensures !old(IsNaN(vector)) ==> r == this && worldNeedsUpdate && viewNeedsUpdate
      ensures !old(IsNaN(vector)) ==>
                position.Value() == Sum(old(position.Value()), EulerRotate(math, old(rotation.Value()), old(vector.Value())))
    {
      if IsNaN(vector) {
        return null;
      }
      var local := ApplyEulerRotation(math, rotation.Value(), vector.Value());
      var localVector := new Vector3(local.x, local.y, local.z);
      r := Translate(localVector);
      worldNeedsUpdate, viewNeedsUpdate := true, true;
      r := this;
    }

    /** `rotate(vector)`: adds `vector` to the angles and wraps each with
        `% 360`, with the same NaN rule. */
    method Rotate(vector: Vector3?) returns (r: Transform?)
      requires Valid()
      modifies this, rotation
      ensures Valid() && unchanged(position, scale)
      ensures old(IsNaN(vector)) ==> r == null && unchanged(this, rotation)
      ensures !old(IsNaN(vector)) ==> r == this && worldNeedsUpdate && viewNeedsUpdate
      ensures !old(IsNaN(vector)) ==> rotation.Value() == Wrapped(Sum(old(rotation.Value()), old(vector.Value())))
    {
      if IsNaN(vector) {
        return null;
      }
      ghost var target := Wrapped(Sum(rotation.Value(), vector.Value()));
      rotation.x := WrapNumber(Plus(rotation.x, vector.x));
      rotation.y := WrapNumber(Plus(rotation.y, vector.y));
      rotation.z := WrapNumber(Plus(rotation.z, vector.z));
      assert rotation.Value() == target;
      worldNeedsUpdate, viewNeedsUpdate := true, true;
      r := this;
    }

    /** `setPosition(vector)`: copies the components of `vector` into the
        position, with the same NaN rule. */
    method SetPosition(vector: Vector3?) returns (r: Transform?)
      requires Valid()
      modifies this, position
      ensures Valid() && unchanged(rotation, scale)
      ensures old(IsNaN(vector)) ==> r == null && unchanged(this, position)
      ensures !old(IsNaN(vector)) ==> r == this && worldNeedsUpdate && viewNeedsUpdate
      ensures !old(IsNaN(vector)) ==> position.Value() == old(vector.Value())
    {
      if IsNaN(vector) {
        return null;
      }
      position.x := vector.x;
      position.y := vector.y;
      position.z := vector.z;
      worldNeedsUpdate, viewNeedsUpdate := true, true;
      r := this;
    }

    /** `setRotation(vector)`: the angles become those of `vector`, each
        wrapped with `% 360`, with the same NaN rule. */
    method SetRotation(vector: Vector3?) returns (r: Transform?)
      requires Valid()
      modifies this, rotation
      ensures Valid() && unchanged(position, scale)
      ensures old(IsNaN(vector)) ==> r == null && unchanged(this, rotation)
      ensures !old(IsNaN(vector)) ==> r == this && worldNeedsUpdate && viewNeedsUpdate
      ensures !old(IsNaN(vector)) ==> rotation.Value() == Wrapped(old(vector.Value()))
    {
      if IsNaN(vector) {
        return null;
      }
      ghost var target := Wrapped(vector.Value());
      rotation.x := WrapNumber(vector.x);
      rotation.y := WrapNumber(vector.y);
      rotation.z := WrapNumber(vector.z);
      assert rotation.Value() == target;
      worldNeedsUpdate, viewNeedsUpdate := true, true;
      r := this;
    }

    /** `setScale(vector)`: copies the components of `vector` into the
        scale, with the same NaN rule. */
    method SetScale(vector: Vector3?) returns (r: Transform?)
      requires Valid()
      modifies this, scale
      ensures Valid() && unchanged(position, rotation)
      ensures old(IsNaN(vector)) ==> r == null && unchanged(this, scale)
      ensures !old(IsNaN(vector)) ==> r == this && worldNeedsUpdate && viewNeedsUpdate
      ensures !old(IsNaN(vector)) ==> scale.Value() == old(vector.Value())
    {
      if IsNaN(vector) {
        return null;
      }
      scale.x := vector.x;
      scale.y := vector.y;
      scale.z := vector.z;
      worldNeedsUpdate, viewNeedsUpdate := true, true;
      r := this;
    }
  }

  /* ---------------------------------------------------------------- */
  /* GameObject                                                        */
  /* ---------------------------------------------------------------- */

  /** A `GameObject`: a name, a mesh (none at first), a transform, and a
      list of children. The core never assigns `parent`. */
  class GameObject {
    var mesh: Mesh?
    const transform: Transform
    var parent: GameObject?
    var children: seq<GameObject>
    const name: string

    /** `new GameObject(name)`: no mesh, no parent, no children, and a new
        default transform whose matrices are already up to date. */
    constructor (math: HostMath, name: string)
      ensures this.name == name && mesh == null && parent == null && children == []
      ensures fresh(transform) && fresh(transform.position) && fresh(transform.rotation) && fresh(transform.scale)
      ensures transform.Valid() && !transform.worldNeedsUpdate && !transform.viewNeedsUpdate
      ensures transform.position.Value() == Zero && transform.rotation.Value() == Zero && transform.scale.Value() == One
    {
      mesh := null;
      transform := new Transform(math);
      parent := null;
      children := [];
      this.name := name;
    }

    /** The `forward` getter, forwarded to the transform. */
    method Forward() returns (f: Vec)
      requires transform.Valid()
      ensures f == ForwardOf(transform.math, transform.rotation.Value())
    {
      f := transform.Forward();
    }

    /** `setMesh(mesh)`: stores the mesh and returns this object. */
    method SetMesh(mesh: Mesh?) returns (r: GameObject)
      modifies this
      ensures r == this && this.mesh == mesh
      ensures children == old(children) && parent == old(parent)
    {
      this.mesh := mesh;
      r := this;
    }

    /** `add(...children)`: appends the game objects among the arguments to
        the children, in order, skipping anything else; no `parent` is
        written and nothing is returned. */
    method Add(xs: seq<Arg<GameObject>>)
      modifies this
      ensures children == old(children) + Instances(xs)
      ensures mesh == old(mesh) && parent == old(parent)
    {
      var i := 0;
      while i < |xs|
        invariant 0 <= i <= |xs|
        invariant children == old(children) + Instances(xs[..i])
        invariant mesh == old(mesh) && parent == old(parent)
      {
        assert xs[..i + 1][..i] == xs[..i];
        if xs[i].Instance? {
          children := children + [xs[i].obj];
        }
        i := i + 1;
      }
      assert xs[..i] == xs;
    }
  }

  /* ---------------------------------------------------------------- */
  /* Mesh                                                              */
  /* ---------------------------------------------------------------- */

  /** The contents of a `Uint16Array` built from numbers. */
  function Uint16Buffer(xs: seq<Number>): (r: seq<int>)
    ensures |r| == |xs|
    ensures forall i :: 0 <= i < |r| ==> 0 <= r[i] < 65536 && r[i] == ToUint16(xs[i])
  {
    seq(|xs|, i requires 0 <= i < |xs| => ToUint16(xs[i]))
  }

  /** A `Mesh`: typed-array buffers of coordinates, triangle indices,
      normals and uv values, not yet bound to the GPU. */
  class Mesh {
    var isBound: bool
    var vertices: array<real>
    var triangles: array<int>
    var normals: array<real>
    var uvs: array<Number>

    /** `new Mesh(vertices, triangles, normals, uvs)`: each buffer is a new
        typed array holding the given values; triangle indices are stored
        as `Uint16` values. An omitted argument is an empty buffer. */
    constructor (vertices: seq<real>, triangles: seq<Number>, normals: seq<real>, uvs: seq<Number>)
      ensures !isBound
      ensures fresh(this.vertices) && fresh(this.triangles) && fresh(this.normals) && fresh(this.uvs)
      ensures this.vertices[..] == vertices && this.triangles[..] == Uint16Buffer(triangles)
      ensures this.normals[..] == normals && this.uvs[..] == uvs
    {
      isBound := false;
      this.vertices := new real[|vertices|](i requires 0 <= i < |vertices| => vertices[i]);
      this.triangles := new int[|triangles|](i requires 0 <= i < |triangles| => ToUint16(triangles[i]));
      this.normals := new real[|normals|](i requires 0 <= i < |normals| => normals[i]);
      this.uvs := new Number[|uvs|](i requires 0 <= i < |uvs| => uvs[i]);
    }

    /** `Mesh.createSharedMesh(meshes)`: one mesh whose coordinate and
        normal buffers are those of all meshes laid end to end, and whose
        triangle buffer holds mesh 0's indices as they are followed by every
        other mesh's indices raised by its running vertex offset. The uv
        buffers are not merged: the result has none. */
    static method CreateSharedMesh(meshes: seq<Mesh>) returns (shared: Mesh)
      requires |meshes| >= 1
      ensures fresh(shared) && fresh(shared.vertices) && fresh(shared.normals) && fresh(shared.triangles)
      ensures !shared.isBound && shared.uvs.Length == 0
      ensures shared.vertices[..] == Flatten(old(VertexBuffers(meshes)))
      ensures shared.normals[..] == Flatten(old(NormalBuffers(meshes)))
      ensures shared.triangles[..] == SharedTriangles(old(TriangleBuffers(meshes)), old(VertexLengths(meshes)))
    {
      var vs, ns, ts := VertexBuffers(meshes), NormalBuffers(meshes), TriangleBuffers(meshes);
      var vertices, normals, triangles := SharedBuffers(vs, ns, ts, VertexLengths(meshes));
      shared := new Mesh([], [], [], []);
      shared.vertices, shared.normals, shared.triangles := vertices, normals, triangles;
    }
  }

  /** The body of `createSharedMesh` on the buffers of the meshes: the
      total lengths first, then mesh 0 copied as it is, then every other
      mesh copied after the previous ones with its indices renumbered. */
  method SharedBuffers(vs: seq<seq<real>>, ns: seq<seq<real>>, ts: seq<seq<int>>, vlens: seq<nat>)
    returns (vertices: array<real>, normals: array<real>, triangles: array<int>)
    requires |vs| == |ns| == |ts| == |vlens| >= 1
    ensures fresh(vertices) && fresh(normals) && fresh(triangles)
    ensures vertices[..] == Flatten(vs) && normals[..] == Flatten(ns) && triangles[..] == SharedTriangles(ts, vlens)
  {
    vertices, normals, triangles := FirstMesh(vs, ns, ts, vlens);
    var offset: real := vlens[0] as real / 3.0;
    var i := 1;
    while i < |vs|
      invariant 1 <= i <= |vs|
      invariant offset == VertexOffset(vlens, i)
      invariant vertices != normals
      invariant FlatPrefix(vertices[..], vs, i) && FlatPrefix(normals[..], ns, i)
      invariant TrianglePrefix(triangles[..], ts, vlens, i)
    {
      AppendMesh(vertices, normals, triangles, vs, ns, ts, vlens, i, offset);
      offset := offset + vlens[i] as real / 3.0;
      i := i + 1;
    }
    FlatComplete(vertices[..], vs);
    FlatComplete(normals[..], ns);
    TrianglesComplete(triangles[..], ts, vlens);
  }

  /** The start of `createSharedMesh`: the buffers are allocated with the
      summed lengths, and mesh 0's buffers are copied to their starts as
      they are. */
  method FirstMesh(vs: seq<seq<real>>, ns: seq<seq<real>>, ts: seq<seq<int>>, vlens: seq<nat>)
    returns (vertices: array<real>, normals: array<real>, triangles: array<int>)
    requires |vs| == |ns| == |ts| == |vlens| >= 1
    ensures fresh(vertices) && fresh(normals) && fresh(triangles) && vertices != normals
    ensures FlatPrefix(vertices[..], vs, 1) && FlatPrefix(normals[..], ns, 1)
    ensures TrianglePrefix(triangles[..], ts, vlens, 1)
  {
    var vLength, nLength, tLength := BufferLengths(vs, ns, ts);
    vertices := new real[vLength](_ => 0.0);
    normals := new real[nLength](_ => 0.0);
    triangles := new int[tLength](_ => 0);
    assert vs[..0] == [] && ns[..0] == [];
    AppendPart(vertices, vs, 0);
    AppendPart(normals, ns, 0);
    FirstTriangles(triangles, ts, vlens);
  }

  /** One pass of the second loop: mesh `i`'s coordinates and normals are
      copied after the first `i` meshes' ones, and its triangles written
      after theirs with `offset` added. */
  method AppendMesh(vertices: array<real>, normals: array<real>, triangles: array<int>,
                    vs: seq<seq<real>>, ns: seq<seq<real>>, ts: seq<seq<int>>, vlens: seq<nat>, i: nat, offset: real)
    requires 1 <= i < |vs| == |ns| == |ts| == |vlens| && vertices != normals
    requires FlatPrefix(vertices[..], vs, i) && FlatPrefix(normals[..], ns, i)
    requires TrianglePrefix(triangles[..], ts, vlens, i) && offset == VertexOffset(vlens, i)
    modifies vertices, normals, triangles
    ensures FlatPrefix(vertices[..], vs, i + 1) && FlatPrefix(normals[..], ns, i + 1)
    ensures TrianglePrefix(triangles[..], ts, vlens, i + 1)
  {
    AppendPart(vertices, vs, i);
    AppendPart(normals, ns, i);
    AppendTriangles(triangles, ts, vlens, i, offset);
  }

  /** `dst` is as long as all the buffers together and holds the first `i` at its start. */
  ghost predicate FlatPrefix<T>(dst: seq<T>, parts: seq<seq<T>>, i: nat) {
    && i <= |parts| && |dst| == TotalLength(parts)
    && TotalLength(parts[..i]) <= |dst| && dst[..TotalLength(parts[..i])] == Flatten(parts[..i])
  }

  /** `dst` is as long as all the triangle buffers together and holds the
      shared triangles of the first `i` meshes at its start. */
  ghost predicate TrianglePrefix(dst: seq<int>, ts: seq<seq<int>>, vlens: seq<nat>, i: nat) {
    && 1 <= i <= |ts| == |vlens| && |dst| == TotalLength(ts)
    && TotalLength(ts[..i]) <= |dst| && dst[..TotalLength(ts[..i])] == SharedTriangles(ts[..i], vlens[..i])
  }

  /** A buffer holding all the parts at its start is their concatenation. */
  lemma FlatComplete<T>(dst: seq<T>, parts: seq<seq<T>>)
    requires FlatPrefix(dst, parts, |parts|)
    ensures dst == Flatten(parts)
  {
    assert parts[..|parts|] == parts;
  }

  /** A buffer holding the shared triangles of all meshes at its start is exactly those. */
  lemma TrianglesComplete(dst: seq<int>, ts: seq<seq<int>>, vlens: seq<nat>)
    requires TrianglePrefix(dst, ts, vlens, |ts|)
    ensures dst == SharedTriangles(ts, vlens)
  {
    assert ts[..|ts|] == ts && vlens[..|ts|] == vlens;
  }

  /** The first loop of `createSharedMesh`: the summed lengths of the buffers. */
  method BufferLengths(vs: seq<seq<real>>, ns: seq<seq<real>>, ts: seq<seq<int>>)
    returns (vLength: nat, nLength: nat, tLength: nat)
    requires |vs| == |ns| == |ts|
    ensures vLength == TotalLength(vs) && nLength == TotalLength(ns) && tLength == TotalLength(ts)
  {
    vLength, nLength, tLength := 0, 0, 0;
    var k := 0;
    while k < |vs|
      invariant 0 <= k <= |vs|
      invariant vLength == TotalLength(vs[..k]) && nLength == TotalLength(ns[..k]) && tLength == TotalLength(ts[..k])
    {
      TotalLengthPrefix(vs, k);
      TotalLengthPrefix(ns, k);
      TotalLengthPrefix(ts, k);
      vLength, nLength, tLength := vLength + |vs[k]|, nLength + |ns[k]|, tLength + |ts[k]|;
      k := k + 1;
    }
    assert vs[..k] == vs && ns[..k] == ns && ts[..k] == ts;
  }

  /** Buffer `i` is copied, as it is, right after the first `i`. */
  method AppendPart<T>(dst: array<T>, parts: seq<seq<T>>, i: nat)
    requires i < |parts| && FlatPrefix(dst[..], parts, i)
    modifies dst
    ensures FlatPrefix(dst[..], parts, i + 1)
  {
    TotalLengthPrefix(parts, i);
    TotalLengthPrefix(parts, i + 1);
    assert parts[..i + 1][..i] == parts[..i];
    SetPrefix(dst, parts[i], TotalLength(parts[..i]));
  }

  /** Mesh 0's triangles are copied to the start as they are. */
  method FirstTriangles(dst: array<int>, ts: seq<seq<int>>, vlens: seq<nat>)
    requires 1 <= |ts| == |vlens| && dst.Length == TotalLength(ts)
    modifies dst
    ensures TrianglePrefix(dst[..], ts, vlens, 1)
  {
    TotalLengthPrefix(ts, 0);
    TotalLengthPrefix(ts, 1);
    assert ts[..0] == [];
    SetPrefix(dst, ts[0], 0);
    assert ts[..1] == [ts[0]] && vlens[..1] == [vlens[0]];
  }

  /** Mesh `i`'s triangles are written after the first `i` meshes' ones,
      every index moved up by `offset`. */
  method AppendTriangles(dst: array<int>, ts: seq<seq<int>>, vlens: seq<nat>, i: nat, offset: real)
    requires 1 <= i < |ts| && TrianglePrefix(dst[..], ts, vlens, i)
    requires offset == VertexOffset(vlens, i)
    modifies dst
    ensures TrianglePrefix(dst[..], ts, vlens, i + 1)
  {
    TotalLengthPrefix(ts, i);
    TotalLengthPrefix(ts, i + 1);
    assert ts[..i + 1][..i] == ts[..i] && vlens[..i + 1][..i] == vlens[..i];
    VertexOffsetPrefix(vlens, i + 1, i);
    RenumberInto(dst, ts[i], TotalLength(ts[..i]), offset);
  }

  /** The coordinate buffers of the meshes, in order. */
  function VertexBuffers(meshes: seq<Mesh>): (r: seq<seq<real>>)
    reads set m | m in meshes, set m | m in meshes :: m.vertices
    ensures |r| == |meshes|
  {
    seq(|meshes|, i requires 0 <= i < |meshes| reads set m | m in meshes, set m | m in meshes :: m.vertices => meshes[i].vertices[..])
  }

  /** The normal buffers of the meshes, in order. */
  function NormalBuffers(meshes: seq<Mesh>): (r: seq<seq<real>>)
    reads set m | m in meshes, set m | m in meshes :: m.normals
    ensures |r| == |meshes|
  {
    seq(|meshes|, i requires 0 <= i < |meshes| reads set m | m in meshes, set m | m in meshes :: m.normals => meshes[i].normals[..])
  }

  /** The triangle buffers of the meshes, in order. */
  function TriangleBuffers(meshes: seq<Mesh>): (r: seq<seq<int>>)
    reads set m | m in meshes, set m | m in meshes :: m.triangles
    ensures |r| == |meshes|
  {
    seq(|meshes|, i requires 0 <= i < |meshes| reads set m | m in meshes, set m | m in meshes :: m.triangles => meshes[i].triangles[..])
  }

  /** `vertices.length` of every mesh, in order. */
  function VertexLengths(meshes: seq<Mesh>): (r: seq<nat>)
    reads set m | m in meshes
    ensures |r| == |meshes|
  {
    seq(|meshes|, i requires 0 <= i < |meshes| reads set m | m in meshes => meshes[i].vertices.Length)
  }

  /** `TypedArray.prototype.set(src, offset)`: copies `src` into `dst`
      from `offset` on and leaves the other slots alone. */
  method SetAt<T>(dst: array<T>, src: seq<T>, offset: nat)
    requires offset + |src| <= dst.Length
    modifies dst
    ensures dst[..] == old(dst[..offset]) + src + old(dst[offset + |src|..])
  {
    ghost var d0 := dst[..];
    var j := 0;
    while j < |src|
      invariant 0 <= j <= |src|
      invariant dst[..] == d0[..offset] + src[..j] + d0[offset + j..]
    {
      ghost var before := dst[..];
      dst[offset + j] := src[j];
      assert dst[..] == before[offset + j := src[j]];
      StoreExtends(before, d0, src, offset, j);
      j := j + 1;
    }
  }

  /** One store of `set`: writing `src[j]` at `offset + j` extends the
      copied part of `src` by one element. */
  lemma StoreExtends<T>(d: seq<T>, d0: seq<T>, src: seq<T>, offset: nat, j: nat)
    requires offset + |src| <= |d0| && j < |src|
    requires d == d0[..offset] + src[..j] + d0[offset + j..]
    ensures d[offset + j := src[j]] == d0[..offset] + src[..j + 1] + d0[offset + j + 1..]
  {
    assert src[..j + 1] == src[..j] + [src[j]];
  }

  /** `set` after a filled prefix: the filled prefix grows by `src`. */
  method SetPrefix<T>(dst: array<T>, src: seq<T>, offset: nat)
    requires offset + |src| <= dst.Length
    modifies dst
    ensures dst[..offset + |src|] == old(dst[..offset]) + src
  {
    SetAt(dst, src, offset);
    assert dst[..offset + |src|] == (dst[..])[..offset + |src|];
  }

  /** The inner loop of `createSharedMesh`: every index of `src` plus
      `offset` is written, as a `Uint16`, after the filled prefix of `dst`. */
  method RenumberInto(dst: array<int>, src: seq<int>, tOffset: nat, offset: real)
    requires tOffset + |src| <= dst.Length
    modifies dst
    ensures dst[..tOffset + |src|] == old(dst[..tOffset]) + Renumbered(src, offset)
  {
    var j := 0;
    while j < |src|
      invariant 0 <= j <= |src|
      invariant dst[..tOffset + j] == old(dst[..tOffset]) + Renumbered(src, offset)[..j]
    {
      dst[j + tOffset] := ToUint16(Real(src[j] as real + offset));
      assert dst[..tOffset + j + 1] == dst[..tOffset + j] + [dst[tOffset + j]];
      j := j + 1;
    }
  }
}
