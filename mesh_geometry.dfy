/** Geometry on flat mesh buffers: coordinates stored three per vertex,
    triangles as three vertex indices each. Covers the per-vertex normals that
    `MeshLoader.obj` and `Mesh.recalculateNormals` compute, and the buffer
    concatenation with index renumbering of `Mesh.createSharedMesh`. */
module MeshGeometry {
  import opened Numbers
  import opened Vectors

  /* ---------------------------------------------------------------- */
  /* Per-vertex normals                                                */
  /* ---------------------------------------------------------------- */

  /** Every coordinate triple is complete, every triangle has three corners,
      and every corner names an existing vertex. */
  predicate WellFormed(verts: seq<real>, tris: seq<int>) {
    |verts| % 3 == 0 && |tris| % 3 == 0 && IndicesBelow(tris, |verts|)
  }

  /** Vertex `i` of a coordinate buffer. */
  function Point(verts: seq<real>, i: int): (p: Vec)
    requires 0 <= i && 3 * i + 2 < |verts|
    ensures !HasNaN(p)
  {
    RealVec(verts[3 * i], verts[3 * i + 1], verts[3 * i + 2])
  }

  /** The unnormalised normal of triangle `t`, computed coordinate by
      coordinate as the source does. */
  function FaceNormal(verts: seq<real>, tris: seq<int>, t: int): (n: Vec)
    requires WellFormed(verts, tris) && 0 <= t && 3 * t + 2 < |tris|
    ensures !HasNaN(n)
  {
    var p1, p2, p3 := 3 * tris[3 * t], 3 * tris[3 * t + 1], 3 * tris[3 * t + 2];
    var p1x, p1y, p1z := verts[p1], verts[p1 + 1], verts[p1 + 2];
    var p2x, p2y, p2z := verts[p2], verts[p2 + 1], verts[p2 + 2];
    var p3x, p3y, p3z := verts[p3], verts[p3 + 1], verts[p3 + 2];
    RealVec((p2y - p1y) * (p3z - p1z) - (p2z - p1z) * (p3y - p1y),
            (p2z - p1z) * (p3x - p1x) - (p2x - p1x) * (p3z - p1z),
            (p2x - p1x) * (p3y - p1y) - (p2y - p1y) * (p3x - p1x))
  }

  /** The face normal is the cross product `(p2 - p1) x (p3 - p1)` of the
      triangle's edges, so it is orthogonal to both edges. */
  lemma FaceNormalIsCross(verts: seq<real>, tris: seq<int>, t: int)
    requires WellFormed(verts, tris) && 0 <= t && 3 * t + 2 < |tris|
    ensures var p1 := Point(verts, tris[3 * t]);
            var p2 := Point(verts, tris[3 * t + 1]);
            var p3 := Point(verts, tris[3 * t + 2]);
            && FaceNormal(verts, tris, t) == Cross(Diff(p2, p1), Diff(p3, p1))
            && Dot(FaceNormal(verts, tris, t), Diff(p2, p1)) == Real(0.0)
            && Dot(FaceNormal(verts, tris, t), Diff(p3, p1)) == Real(0.0)
  {
    var p1 := Point(verts, tris[3 * t]);
    var p2 := Point(verts, tris[3 * t + 1]);
    var p3 := Point(verts, tris[3 * t + 2]);
    var e1 := RealVec(p2.x.val - p1.x.val, p2.y.val - p1.y.val, p2.z.val - p1.z.val);
    var e2 := RealVec(p3.x.val - p1.x.val, p3.y.val - p1.y.val, p3.z.val - p1.z.val);
    assert Diff(p2, p1) == e1 && Diff(p3, p1) == e2;
    CrossOfReals(e1, e2);
    assert FaceNormal(verts, tris, t) == Cross(e1, e2) by {
      var n := FaceNormal(verts, tris, t);
      assert n.x.val == e1.y.val * e2.z.val - e1.z.val * e2.y.val;
      assert n.y.val == e1.z.val * e2.x.val - e1.x.val * e2.z.val;
      assert n.z.val == e1.x.val * e2.y.val - e1.y.val * e2.x.val;
    }
    CrossIsOrthogonal(e1, e2);
  }

  /** The cross product of two vectors without NaN, on the reals. */
  lemma CrossOfReals(a: Vec, b: Vec)
    requires !HasNaN(a) && !HasNaN(b)
    ensures Cross(a, b) == RealVec(a.y.val * b.z.val - a.z.val * b.y.val,
                                   a.z.val * b.x.val - a.x.val * b.z.val,
                                   a.x.val * b.y.val - a.y.val * b.x.val)
  {
  }

  /** `g + k * f`, coordinate by coordinate. */
  function AddTimes(g: Vec, f: Vec, k: real): (r: Vec)
    requires !HasNaN(g) && !HasNaN(f)
    ensures !HasNaN(r)
  {
    RealVec(g.x.val + f.x.val * k, g.y.val + f.y.val * k, g.z.val + f.z.val * k)
  }

  /** `n[3i] += v.x; n[3i+1] += v.y; n[3i+2] += v.z`. */
  function AddAt(n: seq<real>, i: int, v: Vec): (r: seq<real>)
    requires 0 <= i && 3 * i + 2 < |n| && !HasNaN(v)
    ensures |r| == |n|
  {
    n[3 * i := n[3 * i] + v.x.val][3 * i + 1 := n[3 * i + 1] + v.y.val][3 * i + 2 := n[3 * i + 2] + v.z.val]
  }

  /** The face normal of every triangle, in order. */
  function Faces(verts: seq<real>, tris: seq<int>): (faces: seq<Vec>)
    requires WellFormed(verts, tris)
    ensures |faces| == |tris| / 3 && RealFaces(faces)
  {
    seq(|tris| / 3, t requires 0 <= t < |tris| / 3 => FaceNormal(verts, tris, t))
  }

  predicate RealFaces(faces: seq<Vec>) {
    forall t :: 0 <= t < |faces| ==> !HasNaN(faces[t])
  }

  /** Every corner names one of the vertices of a buffer of `size` coordinates. */
  predicate IndicesBelow(tris: seq<int>, size: nat) {
    forall k :: 0 <= k < |tris| ==> 0 <= tris[k] && 3 * tris[k] + 2 < size
  }

  /** A buffer of `size` coordinates after the first `t` triangles were
      scattered into it from zero, triangle `t` adding `faces[t]` to its three
      corners in turn. */
  function Scatter(size: nat, tris: seq<int>, faces: seq<Vec>, t: nat): (n: seq<real>)
    requires IndicesBelow(tris, size) && RealFaces(faces) && 3 * t <= |tris| && t <= |faces|
    ensures |n| == size
  {
    if t == 0 then seq(size, _ => 0.0)
    else
      var prev := Scatter(size, tris, faces, t - 1);
      var s := 3 * (t - 1);
      AddAt(AddAt(AddAt(prev, tris[s], faces[t - 1]), tris[s + 1], faces[t - 1]), tris[s + 2], faces[t - 1])
  }

  /** The buffer after `t` triangles, in terms of the buffer after `t - 1`. */
  lemma ScatterUnfold(size: nat, tris: seq<int>, faces: seq<Vec>, t: nat)
    requires IndicesBelow(tris, size) && RealFaces(faces) && 0 < t && 3 * t <= |tris| && t <= |faces|
    ensures Scatter(size, tris, faces, t) ==
            AddAt(AddAt(AddAt(Scatter(size, tris, faces, t - 1), tris[3 * (t - 1)], faces[t - 1]),
                        tris[3 * (t - 1) + 1], faces[t - 1]),
                  tris[3 * (t - 1) + 2], faces[t - 1])
  {
  }

  /** One more triangle scattered into the buffer. */
  lemma ScatterStep(size: nat, tris: seq<int>, faces: seq<Vec>, t: nat, prev: seq<real>)
    requires IndicesBelow(tris, size) && RealFaces(faces) && 3 * t + 2 < |tris| && t < |faces|
    requires prev == Scatter(size, tris, faces, t)
    ensures Scatter(size, tris, faces, t + 1) ==
            AddAt(AddAt(AddAt(prev, tris[3 * t], faces[t]), tris[3 * t + 1], faces[t]), tris[3 * t + 2], faces[t])
  {
  }

  /** The normal buffer once every triangle was scattered into it. */
  function Accumulate(verts: seq<real>, tris: seq<int>): (n: seq<real>)
    requires WellFormed(verts, tris)
    ensures |n| == |verts|
  {
    Scatter(|verts|, tris, Faces(verts, tris), |tris| / 3)
  }

  /** How many corners of triangle `t` are vertex `v` (0 to 3). */
  function Corners(tris: seq<int>, t: nat, v: int): (c: nat)
    requires 3 * t + 2 < |tris|
    ensures c <= 3
  {
    (if tris[3 * t] == v then 1 else 0) + (if tris[3 * t + 1] == v then 1 else 0) +
    (if tris[3 * t + 2] == v then 1 else 0)
  }

  /** The reference sum for vertex `v`: over the first `t` triangles, each
      face normal counted once per corner the triangle has at `v`. */
  function Gathered(tris: seq<int>, faces: seq<Vec>, t: nat, v: int): (g: Vec)
    requires RealFaces(faces) && 3 * t <= |tris| && t <= |faces|
    ensures !HasNaN(g)
  {
    if t == 0 then Zero
    else AddTimes(Gathered(tris, faces, t - 1, v), faces[t - 1], Corners(tris, t - 1, v) as real)
  }

  /** Adding `f` at vertex `i` changes the triple of vertex `i` only. */
  lemma AddAtPoint(n: seq<real>, i: int, f: Vec, v: int)
    requires 0 <= i && 3 * i + 2 < |n| && !HasNaN(f) && 0 <= v && 3 * v + 2 < |n|
    ensures Point(AddAt(n, i, f), v) == if i == v then AddTimes(Point(n, v), f, 1.0) else Point(n, v)
  {
  }

  /** Adding `f` at the three corners `a`, `b`, `c` in turn adds `f` to
      vertex `v` once per corner at `v`. */
  lemma AddAtCorners(n: seq<real>, a: int, b: int, c: int, f: Vec, v: int)
    requires 0 <= a && 3 * a + 2 < |n| && 0 <= b && 3 * b + 2 < |n| && 0 <= c && 3 * c + 2 < |n|
    requires !HasNaN(f) && 0 <= v && 3 * v + 2 < |n|
    ensures var k := (if a == v then 1 else 0) + (if b == v then 1 else 0) + (if c == v then 1 else 0);
            Point(AddAt(AddAt(AddAt(n, a, f), b, f), c, f), v) == AddTimes(Point(n, v), f, k as real)
  {
    var n1 := AddAt(n, a, f);
    var n2 := AddAt(n1, b, f);
    var ka, kb, kc := if a == v then 1.0 else 0.0, if b == v then 1.0 else 0.0, if c == v then 1.0 else 0.0;
    var p := Point(n, v);
    AddAtPoint(n, a, f, v);
    AddAtPoint(n1, b, f, v);
    AddAtPoint(n2, c, f, v);
    AddTimesZero(p, f);
    assert Point(n1, v) == AddTimes(p, f, ka);
    AddTimesZero(Point(n1, v), f);
    AddTimesTwice(p, f, ka, kb);
    assert Point(n2, v) == AddTimes(p, f, ka + kb);
    AddTimesZero(Point(n2, v), f);
    AddTimesTwice(p, f, ka + kb, kc);
  }

  /** Adding `f` zero times changes nothing. */
  lemma AddTimesZero(g: Vec, f: Vec)
    requires !HasNaN(g) && !HasNaN(f)
    ensures AddTimes(g, f, 0.0) == g
  {
  }

  /** Adding `f` `j` times and then `k` times adds it `j + k` times. */
  lemma AddTimesTwice(g: Vec, f: Vec, j: real, k: real)
    requires !HasNaN(g) && !HasNaN(f)
    ensures AddTimes(AddTimes(g, f, j), f, k) == AddTimes(g, f, j + k)
  {
    assert f.x.val * j + f.x.val * k == f.x.val * (j + k);
    assert f.y.val * j + f.y.val * k == f.y.val * (j + k);
    assert f.z.val * j + f.z.val * k == f.z.val * (j + k);
  }

  /** Adding `f` at the three corners of triangle `t - 1` adds `f` to
      vertex `v` once per corner at `v`. */
  lemma AddAtTriangle(n: seq<real>, tris: seq<int>, t: nat, f: Vec, v: int)
    requires IndicesBelow(tris, |n|) && 0 < t && 3 * t <= |tris| && !HasNaN(f) && 0 <= v && 3 * v + 2 < |n|
    ensures Point(AddAt(AddAt(AddAt(n, tris[3 * (t - 1)], f), tris[3 * (t - 1) + 1], f), tris[3 * (t - 1) + 2], f), v) ==
            AddTimes(Point(n, v), f, Corners(tris, t - 1, v) as real)
  {
    AddAtCorners(n, tris[3 * (t - 1)], tris[3 * (t - 1) + 1], tris[3 * (t - 1) + 2], f, v);
  }

  /** The scatter loop and the gather sum agree: after `t` triangles, the
      triple of every vertex is the sum of the face normals of the triangles
      touching it, once per corner. */
  lemma {:induction false} ScatterIsGathered(size: nat, tris: seq<int>, faces: seq<Vec>, t: nat, v: int)
    requires IndicesBelow(tris, size) && RealFaces(faces) && 3 * t <= |tris| && t <= |faces|
    requires 0 <= v && 3 * v + 2 < size
    ensures Point(Scatter(size, tris, faces, t), v) == Gathered(tris, faces, t, v)
  {
    if t > 0 {
      ScatterIsGathered(size, tris, faces, t - 1, v);
      ScatterPointStep(size, tris, faces, t, v);
    }
  }

  /** Scattering triangle `t - 1` adds its face normal to vertex `v` once
      per corner of the triangle at `v`. */
  lemma ScatterPointStep(size: nat, tris: seq<int>, faces: seq<Vec>, t: nat, v: int)
    requires IndicesBelow(tris, size) && RealFaces(faces) && 0 < t && 3 * t <= |tris| && t <= |faces|
    requires 0 <= v && 3 * v + 2 < size
    ensures Point(Scatter(size, tris, faces, t), v) ==
            AddTimes(Point(Scatter(size, tris, faces, t - 1), v), faces[t - 1], Corners(tris, t - 1, v) as real)
  {
    ScatterUnfold(size, tris, faces, t);
    AddAtTriangle(Scatter(size, tris, faces, t - 1), tris, t, faces[t - 1], v);
  }

  /** A vertex that no triangle touches keeps a zero sum. */
  lemma {:induction false} UntouchedVertexStaysZero(tris: seq<int>, faces: seq<Vec>, t: nat, v: int)
    requires RealFaces(faces) && 3 * t <= |tris| && t <= |faces|
    requires forall k :: 0 <= k < 3 * t ==> tris[k] != v
    ensures Gathered(tris, faces, t, v) == Zero
  {
    if t > 0 {
      UntouchedVertexStaysZero(tris, faces, t - 1, v);
      assert Corners(tris, t - 1, v) == 0;
    }
  }

  /** Coordinate `d` (0, 1 or 2) of a vector without NaN. */
  function Coord(v: Vec, d: int): real
    requires !HasNaN(v) && 0 <= d < 3
  {
    if d == 0 then v.x.val else if d == 1 then v.y.val else v.z.val
  }

  /** `Math.sqrt(x * x + y * y + z * z)`. */
  function Length(math: HostMath, x: real, y: real, z: real): real {
    math.sqrt(x * x + y * y + z * z)
  }

  /** One triple of the normalising pass: a triple of length zero is left as
      it is, any other is multiplied by `1 / length`. */
  function Rescale(math: HostMath, p: Vec): (r: Vec)
    requires !HasNaN(p)
    ensures !HasNaN(r)
  {
    var len := Length(math, p.x.val, p.y.val, p.z.val);
    if len == 0.0 then p
    else
      var num := 1.0 / len;
      RealVec(p.x.val * num, p.y.val * num, p.z.val * num)
  }

  /** The loop's rescaling is exactly `Vector3.normalized` on the triple. */
  lemma RescaleIsNormalized(math: HostMath, p: Vec)
    requires !HasNaN(p)
    ensures Rescale(math, p) == Normalized(math, p)
  {
    DotOfReals(p, p);
    var len := Length(math, p.x.val, p.y.val, p.z.val);
    assert Magnitude(math, p) == Real(len);
    assert p == RealVec(p.x.val, p.y.val, p.z.val);
  }

  /** The normalising pass: every triple is rescaled in place. */
  function NormalizeTriples(math: HostMath, n: seq<real>): (r: seq<real>)
    requires |n| % 3 == 0
    ensures |r| == |n|
  {
    seq(|n|, j requires 0 <= j < |n| => Coord(Rescale(math, Point(n, j / 3)), j % 3))
  }

  /** The normals both routines produce: scatter, then normalise. */
  function VertexNormals(math: HostMath, verts: seq<real>, tris: seq<int>): (r: seq<real>)
    requires WellFormed(verts, tris)
    ensures |r| == |verts|
  {
    NormalizeTriples(math, Accumulate(verts, tris))
  }

  /** Every triple of the result is the normalised triple of the scatter. */
  lemma NormalizeTriplesPoint(math: HostMath, n: seq<real>, v: int)
    requires |n| % 3 == 0 && 0 <= v && 3 * v + 2 < |n|
    ensures Point(NormalizeTriples(math, n), v) == Normalized(math, Point(n, v))
  {
    var r := NormalizeTriples(math, n);
    var p := Rescale(math, Point(n, v));
    assert (3 * v) / 3 == v && (3 * v + 1) / 3 == v && (3 * v + 2) / 3 == v;
    assert r[3 * v] == Coord(p, 0);
    assert r[3 * v + 1] == Coord(p, 1);
    assert r[3 * v + 2] == Coord(p, 2);
    RescaleIsNormalized(math, Point(n, v));
  }

  /** The gather sum of vertex `v` over all triangles. */
  function NormalSum(verts: seq<real>, tris: seq<int>, v: int): (g: Vec)
    requires WellFormed(verts, tris)
    ensures !HasNaN(g)
  {
    Gathered(tris, Faces(verts, tris), |tris| / 3, v)
  }

  /** The normal of vertex `v`: the normalised gather sum. A vertex whose sum
      is zero (touched by no triangle, or by faces that cancel) keeps a zero
      normal; a sum of non-zero length ends with unit length. */
  lemma VertexNormalsSpec(math: HostMath, verts: seq<real>, tris: seq<int>, v: int)
    requires WellFormed(verts, tris) && 0 <= v && 3 * v + 2 < |verts|
    ensures Point(VertexNormals(math, verts, tris), v) == Normalized(math, NormalSum(verts, tris, v))
    ensures NormalSum(verts, tris, v) == Zero ==> Point(VertexNormals(math, verts, tris), v) == Zero
    ensures SqrtSound(math) && Magnitude(math, NormalSum(verts, tris, v)) != Real(0.0) ==>
              LengthSq(Point(VertexNormals(math, verts, tris), v)) == Real(1.0)
  {
    var g := NormalSum(verts, tris, v);
    var acc := Accumulate(verts, tris);
    ScatterIsGathered(|verts|, tris, Faces(verts, tris), |tris| / 3, v);
    assert Point(acc, v) == g;
    NormalizeTriplesPoint(math, acc, v);
    var p := Point(VertexNormals(math, verts, tris), v);
    assert p == Normalized(math, g);
    if g == Zero {
      NormalizedOfZero(math);
    }
    if SqrtSound(math) && Magnitude(math, g) != Real(0.0) {
      NormalizedHasUnitLength(math, g);
    }
  }

  /** A vertex no triangle touches gets a zero normal. */
  lemma UntouchedVertexHasZeroNormal(math: HostMath, verts: seq<real>, tris: seq<int>, v: int)
    requires WellFormed(verts, tris) && 0 <= v && 3 * v + 2 < |verts|
    requires forall k :: 0 <= k < |tris| ==> tris[k] != v
    ensures Point(VertexNormals(math, verts, tris), v) == Zero
  {
    UntouchedVertexStaysZero(tris, Faces(verts, tris), |tris| / 3, v);
    VertexNormalsSpec(math, verts, tris, v);
  }

  /** `n[3i] += f.x; n[3i+1] += f.y; n[3i+2] += f.z` on the buffer. */
  method AddToVertex(norms: array<real>, i: int, f: Vec)
    requires 0 <= i && 3 * i + 2 < norms.Length && !HasNaN(f)
    modifies norms
    ensures norms[..] == AddAt(old(norms[..]), i, f)
  {
    norms[3 * i] := norms[3 * i] + f.x.val;
    norms[3 * i + 1] := norms[3 * i + 1] + f.y.val;
    norms[3 * i + 2] := norms[3 * i + 2] + f.z.val;
  }

  /** `faces` holds the face normal of every triangle, in order. The
      equation is keyed on `FaceNormal`, so it is used only where a face
      normal is computed. */
  predicate FacesOf(faces: seq<Vec>, verts: seq<real>, tris: seq<int>)
    requires WellFormed(verts, tris)
  {
    && 3 * |faces| == |tris| && RealFaces(faces)
    && forall t {:trigger FaceNormal(verts, tris, t)} :: 0 <= t < |faces| ==> faces[t] == FaceNormal(verts, tris, t)
  }

  /** One pass of the scatter loop: triangle `t` adds its face normal to the
      triples of its three corners, one after the other. */
  method ScatterTriangle(norms: array<real>, verts: seq<real>, tris: seq<int>, ghost faces: seq<Vec>, t: int)
    requires WellFormed(verts, tris) && FacesOf(faces, verts, tris)
    requires norms.Length == |verts| && 0 <= t && 3 * t + 2 < |tris|
    requires norms[..] == Scatter(|verts|, tris, faces, t)
    modifies norms
    ensures norms[..] == Scatter(|verts|, tris, faces, t + 1)
  {
    ScatterStep(|verts|, tris, faces, t, norms[..]);
    var f := FaceNormal(verts, tris, t);
    assert f == faces[t];
    AddToVertex(norms, tris[3 * t], f);
    AddToVertex(norms, tris[3 * t + 1], f);
    AddToVertex(norms, tris[3 * t + 2], f);
  }

  /** One pass of the normalising loop: the triple of vertex `v` is
      rescaled; nothing else changes. */
  method NormalizeVertex(math: HostMath, norms: array<real>, v: int)
    requires 0 <= v && 3 * v + 2 < norms.Length
    modifies norms
    ensures var r := Rescale(math, Point(old(norms[..]), v));
            norms[..] == old(norms[..])[3 * v := r.x.val][3 * v + 1 := r.y.val][3 * v + 2 := r.z.val]
  {
    var i := 3 * v;
    ghost var p := Point(norms[..], v);
    assert p == RealVec(norms[i], norms[i + 1], norms[i + 2]);
    var len := Length(math, norms[i], norms[i + 1], norms[i + 2]);
    if len == 0.0 {
      assert norms[..] == norms[..][i := p.x.val][i + 1 := p.y.val][i + 2 := p.z.val];
      return;
    }
    var num := 1.0 / len;
    var x, y, z := norms[i] * num, norms[i + 1] * num, norms[i + 2] * num;
    assert Rescale(math, p) == RealVec(x, y, z);
    norms[i], norms[i + 1], norms[i + 2] := x, y, z;
  }

  /** The normals routine shared by `MeshLoader.obj` and
      `Mesh.recalculateNormals`: a zero-filled buffer as long as the
      coordinates, a scatter loop over the triangles, then a normalising loop
      over the triples. */
  method ComputeNormals(math: HostMath, verts: seq<real>, tris: seq<int>) returns (norms: array<real>)
    requires WellFormed(verts, tris)
    ensures fresh(norms) && norms[..] == VertexNormals(math, verts, tris)
  {
    norms := ScatterFaces(verts, tris);
    NormalizeAll(math, norms);
  }

  /** `n` is the buffer after the first `k` triangles were scattered. */
  predicate Scattered(n: seq<real>, size: nat, tris: seq<int>, faces: seq<Vec>, k: nat) {
    IndicesBelow(tris, size) && RealFaces(faces) && 3 * k <= |tris| && k <= |faces| && n == Scatter(size, tris, faces, k)
  }

  /** The scatter routine: a zero-filled buffer as long as the coordinates,
      then the scatter loop. */
  method ScatterFaces(verts: seq<real>, tris: seq<int>) returns (norms: array<real>)
    requires WellFormed(verts, tris)
    ensures fresh(norms) && norms[..] == Accumulate(verts, tris)
  {
    ghost var faces := Faces(verts, tris);
    norms := new real[|verts|](_ => 0.0);
    assert norms[..] == Scatter(|verts|, tris, faces, 0);
    ScatterAll(verts, tris, norms, faces);
  }

  /** The scatter loop: every triangle in turn adds its face normal at its
      three corners. */
  method ScatterAll(verts: seq<real>, tris: seq<int>, norms: array<real>, ghost faces: seq<Vec>)
    requires WellFormed(verts, tris) && FacesOf(faces, verts, tris) && norms.Length == |verts|
    requires norms[..] == Scatter(|verts|, tris, faces, 0)
    modifies norms
    ensures norms[..] == Scatter(|verts|, tris, faces, |faces|)
  {
    var count := |tris| / 3;
    assert count == |faces|;
    var k := 0;
    while k < count
      invariant 0 <= k <= count && Scattered(norms[..], |verts|, tris, faces, k)
    {
      ScatterTriangle(norms, verts, tris, faces, k);
      k := k + 1;
    }
  }

  /** The normalising loop: every triple of the buffer is rescaled in place. */
  method NormalizeAll(math: HostMath, norms: array<real>)
    requires norms.Length % 3 == 0
    modifies norms
    ensures norms[..] == NormalizeTriples(math, old(norms[..]))
  {
    ghost var acc := norms[..];
    var i := 0;
    while i < norms.Length
      invariant 0 <= i <= norms.Length && i % 3 == 0
      invariant norms[..] == NormalizeTriples(math, acc)[..i] + acc[i..]
    {
      NormalizeNext(math, norms, acc, i);
      NextTriple(i, norms.Length);
      i := i + 3;
    }
    assert acc[i..] == [];
  }

  /** A triple-aligned offset before the end of a buffer of whole triples
      is followed by a whole triple. */
  lemma NextTriple(i: int, n: int)
    requires 0 <= i < n && i % 3 == 0 && n % 3 == 0
    ensures 3 * (i / 3) + 2 < n && i + 3 <= n && (i + 3) % 3 == 0 && (i + 3) / 3 == i / 3 + 1
  {
  }

  /** One iteration of the normalising loop, at offset `i`: the triples
      before `i` are already normalised, and afterwards so is the one at `i`. */
  method NormalizeNext(math: HostMath, norms: array<real>, ghost acc: seq<real>, i: int)
    requires |acc| == norms.Length && |acc| % 3 == 0 && 0 <= i < |acc| && i % 3 == 0
    requires norms[..] == NormalizeTriples(math, acc)[..i] + acc[i..]
    modifies norms
    ensures norms[..] == NormalizeTriples(math, acc)[..i + 3] + acc[i + 3..]
  {
    ghost var prev := norms[..];
    ghost var v := i / 3;
    assert 3 * v == i && 3 * v + 2 < |acc|;
    NormalizeVertex(math, norms, i / 3);
    NormalizeStep(math, acc, v, prev);
  }

  /** Rescaling the next triple of a buffer normalised up to vertex `v`
      normalises it up to vertex `v + 1`. */
  lemma NormalizeStep(math: HostMath, acc: seq<real>, v: int, prev: seq<real>)
    requires |acc| % 3 == 0 && 0 <= v && 3 * v + 2 < |acc|
    requires prev == NormalizeTriples(math, acc)[..3 * v] + acc[3 * v..]
    ensures var r := Rescale(math, Point(prev, v));
            prev[3 * v := r.x.val][3 * v + 1 := r.y.val][3 * v + 2 := r.z.val] ==
            NormalizeTriples(math, acc)[..3 * v + 3] + acc[3 * v + 3..]
  {
    assert Point(prev, v) == Point(acc, v);
    var r := Rescale(math, Point(acc, v));
    NormalizedTriple(math, acc, v);
    TripleWritten(NormalizeTriples(math, acc), acc, prev, v, r.x.val, r.y.val, r.z.val);
  }

  /** Triple `v` of the normalising pass is the rescaled triple `v`. */
  lemma NormalizedTriple(math: HostMath, acc: seq<real>, v: int)
    requires |acc| % 3 == 0 && 0 <= v && 3 * v + 2 < |acc|
    ensures var r := Rescale(math, Point(acc, v));
            var all := NormalizeTriples(math, acc);
            all[3 * v] == r.x.val && all[3 * v + 1] == r.y.val && all[3 * v + 2] == r.z.val
  {
    assert (3 * v) / 3 == v && (3 * v + 1) / 3 == v && (3 * v + 2) / 3 == v;
  }

  /** Writing triple `v` of `all` over the untouched part of a buffer that
      already holds the triples of `all` before `v` extends that prefix by
      one triple. */
  lemma TripleWritten(all: seq<real>, acc: seq<real>, prev: seq<real>, v: int, a: real, b: real, c: real)
    requires |all| == |acc| && 0 <= v && 3 * v + 2 < |acc|
    requires prev == all[..3 * v] + acc[3 * v..]
    requires all[3 * v] == a && all[3 * v + 1] == b && all[3 * v + 2] == c
    ensures prev[3 * v := a][3 * v + 1 := b][3 * v + 2 := c] == all[..3 * v + 3] + acc[3 * v + 3..]
  {
  }

  /* ---------------------------------------------------------------- */
  /* Concatenation with renumbering                                    */
  /* ---------------------------------------------------------------- */

  /** The buffers laid end to end, in order. */
  function Flatten<T>(parts: seq<seq<T>>): seq<T> {
    if |parts| == 0 then [] else Flatten(parts[..|parts| - 1]) + parts[|parts| - 1]
  }

  /** The sum of the lengths of the first buffers is at most the sum of all. */
  lemma {:induction false} TotalLengthPrefix<T>(parts: seq<seq<T>>, i: nat)
    requires i <= |parts|
    ensures TotalLength(parts[..i]) <= TotalLength(parts)
    ensures i < |parts| ==> TotalLength(parts[..i + 1]) == TotalLength(parts[..i]) + |parts[i]|
  {
    if i < |parts| {
      assert parts[..i + 1][..i] == parts[..i];
      TotalLengthPrefix(parts[..|parts| - 1], i);
      assert parts[..|parts| - 1][..i] == parts[..i];
      if i + 1 < |parts| {
        assert parts[..|parts| - 1][..i + 1] == parts[..i + 1];
      }
    } else {
      assert parts[..i] == parts;
    }
  }

  /** The sum of the lengths of the buffers. */
  function TotalLength<T>(parts: seq<seq<T>>): nat {
    if |parts| == 0 then 0 else TotalLength(parts[..|parts| - 1]) + |parts[|parts| - 1]|
  }

  /** The running `offset` of `createSharedMesh` before mesh `i`: the sum of
      `vertices.length / 3` over the meshes before it (not necessarily whole). */
  function VertexOffset(vlens: seq<nat>, i: nat): real
    requires i <= |vlens|
  {
    if i == 0 then 0.0 else VertexOffset(vlens, i - 1) + vlens[i - 1] as real / 3.0
  }

  /** A triangle buffer with `offset` added to every index, stored into a
      `Uint16Array` (truncated and reduced modulo 2^16). */
  function Renumbered(tris: seq<int>, offset: real): (r: seq<int>)
    ensures |r| == |tris|
  {
    seq(|tris|, j requires 0 <= j < |tris| => ToUint16(Real(tris[j] as real + offset)))
  }

  /** The triangles of the shared mesh: mesh 0's as they are, then every
      other mesh's renumbered by its vertex offset. */
  function SharedTriangles(tris: seq<seq<int>>, vlens: seq<nat>): seq<int>
    requires |tris| == |vlens| >= 1
    decreases |tris|
  {
    if |tris| == 1 then tris[0]
    else SharedTriangles(tris[..|tris| - 1], vlens[..|tris| - 1])
         + Renumbered(tris[|tris| - 1], VertexOffset(vlens, |tris| - 1))
  }

  /** The flattened buffer is exactly as long as all buffers together. */
  lemma {:induction false} FlattenLength<T>(parts: seq<seq<T>>)
    ensures |Flatten(parts)| == TotalLength(parts)
  {
    if |parts| > 0 {
      FlattenLength(parts[..|parts| - 1]);
    }
  }

  /** Element `j` of buffer `i` sits at the total length of the buffers before it, plus `j`. */
  lemma {:induction false} FlattenPlacement<T>(parts: seq<seq<T>>, i: nat, j: nat)
    requires i < |parts| && j < |parts[i]|
    ensures TotalLength(parts[..i]) + j < |Flatten(parts)|
    ensures Flatten(parts)[TotalLength(parts[..i]) + j] == parts[i][j]
  {
    var n := |parts| - 1;
    assert parts[..n][..i] == parts[..i];
    FlattenLength(parts[..i]);
    FlattenLength(parts[..n]);
    if i < n {
      FlattenPlacement(parts[..n], i, j);
      assert TotalLength(parts[..i]) + j < |Flatten(parts[..n])|;
    } else {
      assert parts[..n] == parts[..i];
    }
  }

  /** The triangle buffer of the shared mesh is as long as all triangle buffers together. */
  lemma {:induction false} SharedTrianglesLength(tris: seq<seq<int>>, vlens: seq<nat>)
    requires |tris| == |vlens| >= 1
    ensures |SharedTriangles(tris, vlens)| == TotalLength(tris)
  {
    if |tris| > 1 {
      SharedTrianglesLength(tris[..|tris| - 1], vlens[..|tris| - 1]);
    } else {
      assert tris[..0] == [];
    }
  }

  /** Mesh 0's triangles open the shared buffer unchanged, and triangle index
      `j` of mesh `i > 0` sits at the total triangle count of the meshes before
      it plus `j`, raised by the vertex offset of mesh `i`. */
  lemma {:induction false} SharedTrianglesPlacement(tris: seq<seq<int>>, vlens: seq<nat>, i: nat, j: nat)
    requires |tris| == |vlens| >= 1 && i < |tris| && j < |tris[i]|
    ensures TotalLength(tris[..i]) + j < |SharedTriangles(tris, vlens)|
    ensures SharedTriangles(tris, vlens)[TotalLength(tris[..i]) + j]
              == if i == 0 then tris[0][j] else ToUint16(Real(tris[i][j] as real + VertexOffset(vlens, i)))
  {
    var n := |tris| - 1;
    if n == 0 {
      assert tris[..0] == [];
    } else {
      var pre, vpre := tris[..n], vlens[..n];
      SharedTrianglesLength(pre, vpre);
      assert pre[..i] == tris[..i] by {
        if i == n {
          assert pre == tris[..i];
        }
      }
      if i < n {
        SharedTrianglesPlacement(pre, vpre, i, j);
        assert VertexOffset(vpre, i) == VertexOffset(vlens, i) by {
          VertexOffsetPrefix(vlens, n, i);
        }
      } else {
        assert pre == tris[..i];
      }
    }
  }

  /** The offset before mesh `i` depends only on the meshes before it. */
  lemma {:induction false} VertexOffsetPrefix(vlens: seq<nat>, n: nat, i: nat)
    requires i <= n <= |vlens|
    ensures VertexOffset(vlens[..n], i) == VertexOffset(vlens, i)
  {
    if i > 0 {
      VertexOffsetPrefix(vlens, n, i - 1);
    }
  }

  /** The number of whole vertices in the meshes before mesh `i`. */
  function VertexCountBefore(vlens: seq<nat>, i: nat): nat
    requires i <= |vlens|
  {
    if i == 0 then 0 else VertexCountBefore(vlens, i - 1) + vlens[i - 1] / 3
  }

  /** When every mesh has whole vertices, the running offset is the whole
      number of vertices before the mesh. */
  lemma {:induction false} WholeVertexOffset(vlens: seq<nat>, i: nat)
    requires i <= |vlens| && forall k :: 0 <= k < |vlens| ==> vlens[k] % 3 == 0
    ensures VertexOffset(vlens, i) == VertexCountBefore(vlens, i) as real
  {
    if i > 0 {
      WholeVertexOffset(vlens, i - 1);
      var l := vlens[i - 1];
      assert l == 3 * (l / 3);
      assert l as real / 3.0 == (l / 3) as real;
    }
  }

  /** With whole vertices and indices that stay below 2^16, every index of
      mesh `i > 0` is raised by exactly the number of vertices before it. */
  lemma ExactRenumbering(tris: seq<seq<int>>, vlens: seq<nat>, i: nat, j: nat)
    requires |tris| == |vlens| >= 1 && 0 < i < |tris| && j < |tris[i]|
    requires forall k :: 0 <= k < |vlens| ==> vlens[k] % 3 == 0
    requires 0 <= tris[i][j] && tris[i][j] + VertexCountBefore(vlens, i) < 65536
    ensures TotalLength(tris[..i]) + j < |SharedTriangles(tris, vlens)|
    ensures SharedTriangles(tris, vlens)[TotalLength(tris[..i]) + j] == tris[i][j] + VertexCountBefore(vlens, i)
  {
    SharedTrianglesPlacement(tris, vlens, i, j);
    WholeVertexOffset(vlens, i);
    var n := tris[i][j] + VertexCountBefore(vlens, i);
    assert tris[i][j] as real + VertexOffset(vlens, i) == n as real;
    ToUint16Exact(n);
  }
}
